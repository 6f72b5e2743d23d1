/** Each step of the run actor keeps the run alive: lemmas about `Live`, one per kind of step. */
module DriverSteps {
  import opened Wrappers
  import opened Seal
  import opened IssueFile
  import opened World
  import opened DriverState

  // ---- Frames ----

  /** Nothing that `TaskOk` says about `u` has changed. */
  ghost predicate SameFor(st: Start, s: State, s': State, u: TaskId) {
    u in s.place && u in s'.place && s'.place[u] == s.place[u] &&
    (u in s'.issues <==> u in s.issues) && (u in s.issues ==> s'.issues[u] == s.issues[u]) &&
    s'.w.round == s.w.round && s'.w.resets == s.w.resets && s'.marks == s.marks && s.chain <= s'.chain &&
      s.w.used <= s'.w.used &&
    CountJobs(s'.w.jobs, s.w.round, u) == CountJobs(s.w.jobs, s.w.round, u) &&
    s'.place.Keys == s.place.Keys && (Separate(st, s) && s.place[u].Running? ==>
       forall j :: j in s.jobToTask && s.jobToTask[j] == u ==> j in s'.jobToTask && s'.jobToTask[j] == u) &&
    (s.place[u].Judging? ==> forall a :: (u, a) in s.w.inflight ==> (u, a) in s'.w.inflight)
  }

  lemma TaskFrame(cfg: Config, st: Start, s: State, s': State, u: TaskId)
    requires Counted(s) && SameFor(st, s, s', u) && TaskOk(cfg, st, s, u)
    ensures TaskOk(cfg, st, s', u)
  {
    hide CountJobs, Since, Trusted;
  }

  /** A step that touches one task only. */
  lemma OneTaskMoves(cfg: Config, st: Start, s: State, q: seq<TaskPlan>, hand: set<TaskId>,
                     s': State, q': seq<TaskPlan>, hand': set<TaskId>, t: TaskId)
    requires Live(cfg, st, s, q, hand) && s'.round == s'.w.round && s'.w.resets == s.w.resets &&
      s'.w.round == s.w.round && s'.marks == s.marks
    requires PlacesAgree(s', q', hand') && RoutesAgree(st, s') && s'.place.Keys == s.place.Keys
    requires t in s'.place && TaskOk(cfg, st, s', t)
    requires t in s'.issues && s'.issues[t].meta.jobId.Some? ==>
      (t in s.issues && s.issues[t].meta.jobId == s'.issues[t].meta.jobId) || s'.issues[t].meta.jobId.value !in s.w.used
    requires forall u :: u in s.place && u != t ==> SameFor(st, s, s', u)
    ensures Live(cfg, st, s', q', hand')
  {
    forall u | u in s'.place ensures TaskOk(cfg, st, s', u) {
      if u != t {
        TaskFrame(cfg, st, s, s', u);
      }
    }
  }

  lemma HeadIds(plan: TaskPlan, rest: seq<TaskPlan>)
    requires Distinct([plan] + rest)
    ensures Distinct(rest) && plan.taskId !in Ids(rest) && Ids([plan] + rest) == {plan.taskId} + Ids(rest)
  {
    var q := [plan] + rest;
    assert q[0] == plan && forall i :: 0 <= i < |rest| ==> rest[i] == q[i + 1];
    assert forall x :: x in Ids(rest) ==> x in Ids(q);
  }

  lemma AppendIds(q: seq<TaskPlan>, wave: seq<TaskPlan>)
    requires Distinct(q) && Distinct(wave) && Ids(q) !! Ids(wave)
    ensures Distinct(q + wave) && Ids(q + wave) == Ids(q) + Ids(wave)
  {
    var r := q + wave;
    assert forall i :: 0 <= i < |q| ==> q[i].taskId in Ids(q);
    assert forall i :: 0 <= i < |wave| ==> wave[i].taskId in Ids(wave) && r[|q| + i] == wave[i];
    assert forall i :: 0 <= i < |q| ==> r[i] == q[i];
    assert Distinct(r);
    assert forall i :: 0 <= i < |r| ==> r[i].taskId in Ids(q) + Ids(wave);
    assert forall i :: 0 <= i < |r| ==> r[i].taskId in Ids(r);
  }

  // ---- Taking a task in hand ----

  function HeadTaken(s: State, t: TaskId): State {
    s.(place := s.place[t := InHand])
  }

  lemma TakeHead(cfg: Config, st: Start, s: State, plan: TaskPlan, rest: seq<TaskPlan>)
    requires Live(cfg, st, s, [plan] + rest, {})
    requires plan.taskId in s.issues && !s.issues[plan.taskId].meta.status.Pending?
    ensures Live(cfg, st, HeadTaken(s, plan.taskId), rest, {plan.taskId})
    ensures Counted(s) &&
      (s.w.round == 0 ==> plan.taskId in st.issues && st.issues[plan.taskId] == s.issues[plan.taskId])
    ensures st.isNew ==> Settled(cfg, st, s, plan.taskId)
    ensures Vetted(cfg, st, s, plan.taskId) ==>
      Undecided(st, s.issues[plan.taskId].meta) ||
      Settled(cfg, st, s, plan.taskId)
  {
    hide CountJobs, Since, Trusted, HasVerdict, OneJobEach, NamesOutput;
    var t, s' := plan.taskId, HeadTaken(s, plan.taskId);
    HeadIds(plan, rest);
    assert s.place[t].Queued? && TaskOk(cfg, st, s, t);
    OneTaskMoves(cfg, st, s, [plan] + rest, {}, s', rest, {t}, t);
  }

  function JobTaken(s: State, ev: FinalResponse): State
    requires ev.jobId in s.jobToTask
  {
    var t := s.jobToTask[ev.jobId];
    s.(jobToTask := s.jobToTask - {ev.jobId}, place := s.place[t := InHand],
       w := s.w.(heard := s.w.heard + [Heard(ev.jobId, t, ev)]))
  }

  /** A response arrives for a job the actor routes. */
  lemma TakeJob(cfg: Config, st: Start, s: State, ev: FinalResponse)
    requires Live(cfg, st, s, [], {}) && ev.jobId in s.jobToTask
    ensures var t := s.jobToTask[ev.jobId];
            Live(cfg, st, JobTaken(s, ev), [], {t}) && t in s.issues && s.issues[t].meta.jobId == Some(ev.jobId) &&
            s.issues[t].meta.status.Spawned? && OpenAtStart(st, s.w.round, t)
    ensures st.isNew ==> forall i :: 0 <= i < |s.w.heard| ==> s.w.heard[i].job != ev.jobId
  {
    hide CountJobs, Since, Trusted, HasVerdict, OneJobEach;
    var t, s' := s.jobToTask[ev.jobId], JobTaken(s, ev);
    assert TaskOk(cfg, st, s, t);
    TakenRoutes(st, s, ev);
    hide RoutesAgree;
    OneTaskMoves(cfg, st, s, [], {}, s', [], {t}, t);
  }

  lemma TakenRoutes(st: Start, s: State, ev: FinalResponse)
    requires RoutesAgree(st, s) && ev.jobId in s.jobToTask
    ensures RoutesAgree(st, JobTaken(s, ev))
  {
    hide OneJobEach;
    var s' := JobTaken(s, ev);
    assert forall i :: 0 <= i < |s.w.heard| ==> s'.w.heard[i] == s.w.heard[i];
  }

  /** A response for a task in hand that was running is taken in. */
  function HeardOf(s: State, t: TaskId, j: JobId, ev: FinalResponse): State {
    s.(w := s.w.(heard := s.w.heard + [Heard(j, t, ev)]))
  }

  lemma HeardSafe(cfg: Config, st: Start, s: State, t: TaskId, j: JobId, ev: FinalResponse)
    requires Safe(cfg, st, s) && (t in s.issues ==> !HasAnswer(s.issues[t].meta.status))
    requires st.isNew ==> forall i :: 0 <= i < |s.w.heard| ==> s.w.heard[i].job != j
    ensures Safe(cfg, st, HeardOf(s, t, j, ev))
  {
    hide HasVerdict, CountJobs, Budget, Anchored, ViewAfter, Since, Trusted, AnswerOk;
    var s' := HeardOf(s, t, j, ev);
    forall i | 0 <= i < |s.w.sent| ensures ReportOk(cfg, st, s', s.w.sent[i]) {
      assert ReportOk(cfg, st, s, s.w.sent[i]);
    }
    forall k | 0 <= k < |s.w.jobs| ensures JobOk(cfg, st, s', s.w.jobs[k]) {
      assert JobOk(cfg, st, s, s.w.jobs[k]);
    }
    forall u | u in s.w.planned && u in s.issues ensures AnswerOk(cfg, st, s.w.jobs, s'.w.heard, u, s.issues[u]) {
      AnswerHeard(cfg, st, s.w.jobs, s.w.heard, Heard(j, t, ev), u, s.issues[u]);
    }
  }

  lemma JobTakenSafe(cfg: Config, st: Start, s: State, ev: FinalResponse)
    requires Safe(cfg, st, s) && ev.jobId in s.jobToTask
    requires var t := s.jobToTask[ev.jobId]; t in s.issues && s.issues[t].meta.status.Spawned?
    requires st.isNew ==> forall i :: 0 <= i < |s.w.heard| ==> s.w.heard[i].job != ev.jobId
    ensures Safe(cfg, st, JobTaken(s, ev))
  {
    hide Safe;
    var t := s.jobToTask[ev.jobId];
    HeardSafe(cfg, st, s, t, ev.jobId, ev);
    SafeFrame(cfg, st, HeardOf(s, t, ev.jobId, ev), JobTaken(s, ev));
  }

  /** On resume, a captured response of the task in hand is taken in. */
  lemma HeardLive(cfg: Config, st: Start, s: State, q: seq<TaskPlan>, t: TaskId, j: JobId, ev: FinalResponse)
    requires Live(cfg, st, s, q, {t}) && !st.isNew && j in s.w.used
    ensures Live(cfg, st, HeardOf(s, t, j, ev), q, {t})
  {
    hide CountJobs, Since, Trusted, HasVerdict, OneJobEach;
    var s' := HeardOf(s, t, j, ev);
    forall u | u in s'.place ensures TaskOk(cfg, st, s', u) {
      TaskFrame(cfg, st, s, s', u);
    }
  }

  function VerdictTaken(s: State, t: TaskId, a: nat): State {
    s.(w := s.w.(inflight := s.w.inflight - {(t, a)}), place := s.place[t := InHand])
  }

  /** An oracle the actor started answers. */
  lemma TakeVerdict(cfg: Config, st: Start, s: State, t: TaskId, a: nat)
    requires Live(cfg, st, s, [], {}) && (t, a) in s.w.inflight
    ensures Live(cfg, st, VerdictTaken(s, t, a), [], {t})
    ensures t in s.issues && t in cfg.accept && s.issues[t].meta.attempt == a && s.issues[t].meta.status.Verifying?
    ensures OpenAtStart(st, s.w.round, t)
  {
    hide CountJobs, Since, Trusted, HasVerdict, OneJobEach, NamesOutput;
    var s' := VerdictTaken(s, t, a);
    assert TaskOk(cfg, st, s, t);
    OneTaskMoves(cfg, st, s, [], {}, s', [], {t}, t);
  }

  // ---- Working on the task in hand ----

  lemma PutLive(cfg: Config, st: Start, s: State, q: seq<TaskPlan>, hand: set<TaskId>, r: Record, n: nat)
    requires Live(cfg, st, s, q, hand)
    ensures Live(cfg, st, Put(cfg, s, r, n), q, hand)
  {
    hide OneJobEach, CountJobs, Since, Trusted;
    var s' := Put(cfg, s, r, n);
    forall u | u in s'.place ensures TaskOk(cfg, st, s', u) {
      TaskFrame(cfg, st, s, s', u);
    }
  }

  lemma HandWrite(cfg: Config, st: Start, s: State, q: seq<TaskPlan>, t: TaskId, issue: Issue)
    requires ConfigOk(cfg) && Live(cfg, st, s, q, {t}) && t in s.issues
    requires issue.meta.id == t && issue.meta.jobId == s.issues[t].meta.jobId &&
      issue.meta.attempt == s.issues[t].meta.attempt
    ensures Live(cfg, st, Wrote(cfg, s, issue), q, {t})
  {
    hide OneJobEach;
    var s' := Wrote(cfg, s, issue);
    assert s.place[t].InHand? && TaskOk(cfg, st, s, t);
    OneTaskMoves(cfg, st, s, q, {t}, s', q, {t}, t);
  }

  function Launched(s: State, t: TaskId, a: nat): State {
    s.(w := s.w.(inflight := s.w.inflight + {(t, a)}), place := s.place[t := Judging(a)])
  }

  /** The task in hand is given to its oracle. */
  lemma LaunchLive(cfg: Config, st: Start, s: State, q: seq<TaskPlan>, t: TaskId)
    requires Live(cfg, st, s, q, {t}) && t in s.issues && t in cfg.accept
    requires s.issues[t].meta.status.Verifying? && OpenAtStart(st, s.w.round, t)
    ensures Live(cfg, st, Launched(s, t, s.issues[t].meta.attempt), q, {})
  {
    hide CountJobs, Since, Trusted, HasVerdict, OneJobEach, NamesOutput;
    var s' := Launched(s, t, s.issues[t].meta.attempt);
    assert s.place[t].InHand? && TaskOk(cfg, st, s, t);
    OneTaskMoves(cfg, st, s, q, {t}, s', q, {}, t);
  }

  lemma LaunchedSafe(cfg: Config, st: Start, s: State, t: TaskId, a: nat)
    requires Safe(cfg, st, s)
    ensures Safe(cfg, st, Launched(s, t, a))
  {
    SafeFrame(cfg, st, s, Launched(s, t, a));
  }

  function Told1(s: State, t: TaskId, outcome: TaskOutcome, a: nat): State {
    s.(w := Reported(s.w, t, outcome, a), place := s.place[t := Told])
  }

  /** The task in hand is reported to the kernel. */
  lemma ReportLive(cfg: Config, st: Start, s: State, q: seq<TaskPlan>, t: TaskId, outcome: TaskOutcome, a: nat)
    requires Live(cfg, st, s, q, {t}) && (Vetted(cfg, st, s, t) ==> Settled(cfg, st, s, t))
    ensures t in s.w.released && t !in s.w.reported
    ensures Live(cfg, st, Told1(s, t, outcome, a), q, {})
  {
    hide CountJobs, Since, Trusted, HasVerdict, OneJobEach;
    assert s.place[t].InHand? && TaskOk(cfg, st, s, t);
    var s' := Told1(s, t, outcome, a);
    OneTaskMoves(cfg, st, s, q, {t}, s', q, {}, t);
  }

  lemma Reportable(cfg: Config, st: Start, s: State, q: seq<TaskPlan>, t: TaskId, outcome: TaskOutcome, a: nat)
    requires Live(cfg, st, s, q, {t})
    ensures t in s.w.released && t !in s.w.reported
  {
    hide TaskOk, RoutesAgree;
  }

  lemma AllReported(w: World, reply: AdvanceReply)
    requires AdvanceAllowed(w, reply) && reply.Completed?
    ensures w.released == w.reported
  {
  }

  lemma WaveIsFresh(w: World, reply: AdvanceReply)
    requires AdvanceAllowed(w, reply) && reply.NextWave?
    ensures FreshWave(w, reply.wave)
  {
  }

  /** A task that was not settled on disk may be reported either way; `Done` needs the verdict. */
  lemma OpenReport(cfg: Config, st: Start, s: State, q: seq<TaskPlan>, t: TaskId, outcome: TaskOutcome)
    requires Live(cfg, st, s, q, {t}) && t in s.issues && OpenAtStart(st, s.w.round, t)
    requires outcome.OutcomeDone? && t in cfg.accept && Trusted(st, s.w.resets, t, s.w.round) ==>
      HasVerdict(s.chain, Since(st, s.w.resets, s.marks, t, s.w.round), t, s.issues[t].meta.attempt, true)
    ensures ReportOk(cfg, st, s, Report(s.w.round, t, outcome, s.issues[t].meta.attempt))
  {
    hide HasVerdict, Since, Trusted;
    HandFacts(cfg, st, s, q, t);
  }

  /** A task that was settled on disk is reported as it was settled. */
  lemma SettledReport(cfg: Config, st: Start, s: State, q: seq<TaskPlan>, t: TaskId, outcome: TaskOutcome)
    requires Live(cfg, st, s, q, {t}) && t in s.issues
    requires s.w.round == 0 ==> t in st.issues && st.issues[t] == s.issues[t]
    requires Vetted(cfg, st, s, t) ==> Settled(cfg, st, s, t)
    requires var m := s.issues[t].meta.status;
             if outcome.OutcomeDone? then m.Done? || m.Verified? || m.Verifying? else m.Failed? || m.Rejected?
    ensures ReportOk(cfg, st, s, Report(s.w.round, t, outcome, s.issues[t].meta.attempt))
  {
    hide HasVerdict, Since, Trusted;
    HandFacts(cfg, st, s, q, t);
  }

  lemma BaseAnchored(cfg: Config, st: Start, s: State, t: TaskId)
    requires Safe(cfg, st, s) && t in s.issues && InBase(st, t)
    ensures Anchored(s.issues[t].meta, s.chain)
  {
  }

  /** An answered issue may be put under judgement: its output is anchored, and its text stays. */
  lemma VerifyingKeeps(cfg: Config, st: Start, s: State, t: TaskId, issue: Issue)
    requires ConfigOk(cfg) && Safe(cfg, st, s) && t in s.w.planned && t in s.issues && s.issues[t].meta.id == t
    requires s.issues[t].meta.status.Done? || s.issues[t].meta.status.Verifying?
    requires issue == s.issues[t].(meta := s.issues[t].meta.(status := Verifying))
    ensures InBase(st, t) ==> Anchored(issue.meta, s.chain)
    ensures AnswerOk(cfg, st, s.w.jobs, s.w.heard, t, cfg.reread(issue))
  {
    if InBase(st, t) {
      BaseAnchored(cfg, st, s, t);
    }
    AnswerAt(cfg, st, s, t);
    hide Safe, AnswerOk;
    AnswerKept(cfg, st, s.w.jobs, s.w.heard, t, s.issues[t], issue);
  }

  lemma LastOutput(chain: seq<Record>, rec: Record, t: TaskId, sha: Option<string>)
    requires rec.kind.DispatchOutput? && rec.taskId == t && rec.responseSha == sha
    ensures NamesOutput(chain + [rec], Some(rec.hash), t, sha)
  {
    assert (chain + [rec])[|chain|] == rec;
  }

  /** The last response heard is this one, of the job that the issue of `t` names. */
  predicate JustHeard(s: State, t: TaskId, ev: FinalResponse) {
    s.w.heard != [] && t in s.issues &&
    var h := s.w.heard[|s.w.heard| - 1];
    h.task == t && h.response == ev && s.issues[t].meta.jobId == Some(h.job)
  }

  /** An issue that names the record just sealed is anchored, and stores the text just heard. */
  lemma DoneKeeps(cfg: Config, st: Start, s: State, t: TaskId, ev: FinalResponse, rec: Record, issue: Issue)
    requires ConfigOk(cfg) && Safe(cfg, st, s) && t in s.w.planned && JustHeard(s, t, ev) && ev.path.Some?
    requires s.issues[t].meta.id == t && rec.kind.DispatchOutput? && rec.taskId == t && rec.responseSha == ev.sha
    requires issue == s.issues[t].(
      meta := s.issues[t].meta.(status := Done, responseSha := ev.sha, seal := Some(rec.hash)), response :=
        Some(ev.text))
    ensures Anchored(issue.meta, s.chain + [rec])
    ensures AnswerOk(cfg, st, s.w.jobs, s.w.heard, t, cfg.reread(issue))
  {
    LastOutput(s.chain, rec, t, ev.sha);
    AnswerAt(cfg, st, s, t);
    AnswerLegible(cfg, st, s.w.jobs, s.w.heard, t, s.issues[t]);
    hide Safe, AnswerOk;
    AnswerStored(cfg, st, s.w.jobs, s.w.heard, |s.w.heard| - 1, t, issue);
  }

  lemma LastVerdict(chain: seq<Record>, rec: Record, t: TaskId, attempt: nat, passed: bool)
    requires IsVerdict(rec, t, attempt, passed)
    ensures NamesVerdict(chain + [rec], Some(rec.hash), t, attempt, passed)
    ensures forall from :: 0 <= from <= |chain| ==> HasVerdict(chain + [rec], from, t, attempt, passed)
  {
    assert (chain + [rec])[|chain|] == rec;
  }

  lemma ToldSafe(cfg: Config, st: Start, s: State, t: TaskId, outcome: TaskOutcome, a: nat)
    requires Safe(cfg, st, s) && t !in s.w.reported
    requires ReportOk(cfg, st, s, Report(s.w.round, t, outcome, a))
    ensures Safe(cfg, st, Told1(s, t, outcome, a))
  {
    ReportedSafe(cfg, st, s, t, outcome, a);
    SafeFrame(cfg, st, s.(w := Reported(s.w, t, outcome, a)), Told1(s, t, outcome, a));
  }

  // ---- Spawning ----

  function JobRouted(cfg: Config, s: State, j: Job, issue: Issue): State {
    var s1 := Wrote(cfg, s.(w := Spawning(s.w, j)), issue);
    s1.(jobToTask := s1.jobToTask[j.id := j.task], place := s1.place[j.task := Running(j.id)])
  }

  lemma RoutedSafe(cfg: Config, st: Start, s: State, j: Job, issue: Issue)
    requires Safe(cfg, st, Wrote(cfg, s.(w := Spawning(s.w, j)), issue))
    ensures Safe(cfg, st, JobRouted(cfg, s, j, issue))
  {
    SafeFrame(cfg, st, Wrote(cfg, s.(w := Spawning(s.w, j)), issue), JobRouted(cfg, s, j, issue));
  }

  lemma CountOthers(jobs: seq<Job>, j: Job)
    ensures forall u :: u != j.task ==> CountJobs(jobs + [j], j.round, u) == CountJobs(jobs, j.round, u)
    ensures CountJobs(jobs + [j], j.round, j.task) == CountJobs(jobs, j.round, j.task) + 1
  {
    forall u ensures CountJobs(jobs + [j], j.round, u) == CountJobs(jobs, j.round, u) + if u == j.task then 1 else 0 {
      CountAppend(jobs, j, j.round, u);
    }
  }

  /** The job is one the round may still spend, and its issue says so. */
  ghost predicate Spawns(s: State, j: Job, issue: Issue) {
    j.id !in s.w.used && j.round == s.w.round &&
    issue.meta.id == j.task && issue.meta.status.Spawned? && issue.meta.jobId == Some(j.id) &&
      issue.meta.attempt == j.attempt &&
    CountJobs(s.w.jobs, j.round, j.task) <= j.attempt
  }

  lemma RoutedLive(cfg: Config, st: Start, s: State, q: seq<TaskPlan>, hand: set<TaskId>, q': seq<TaskPlan>, j: Job,
    issue: Issue)
    requires ConfigOk(cfg) && Live(cfg, st, s, q, hand) && Spawns(s, j, issue)
    requires OpenAtStart(st, s.w.round, j.task)
    requires j.task in s.place && (s.place[j.task].Queued? || s.place[j.task].InHand?)
    requires PlacesAgree(JobRouted(cfg, s, j, issue), q', {})
    ensures Live(cfg, st, JobRouted(cfg, s, j, issue), q', {})
  {
    hide OneJobEach;
    var t, s' := j.task, JobRouted(cfg, s, j, issue);
    RoutedTask(cfg, st, s, j, issue);
    RoutedRoutes(cfg, st, s, j, issue);
    RoutedOthers(cfg, st, s, j, issue);
    OneTaskMoves(cfg, st, s, q, hand, s', q', {}, t);
  }

  lemma RoutedTask(cfg: Config, st: Start, s: State, j: Job, issue: Issue)
    requires ConfigOk(cfg) && Counted(s) && Spawns(s, j, issue) && OpenAtStart(st, s.w.round, j.task)
    ensures TaskOk(cfg, st, JobRouted(cfg, s, j, issue), j.task)
  {
    CountOthers(s.w.jobs, j);
  }

  lemma RoutedOthers(cfg: Config, st: Start, s: State, j: Job, issue: Issue)
    requires j.task in s.place && Spawns(s, j, issue) && forall k :: k in s.jobToTask ==> k in s.w.used
    ensures forall u :: u in s.place && u != j.task ==> SameFor(st, s, JobRouted(cfg, s, j, issue), u)
  {
    CountOthers(s.w.jobs, j);
  }

  lemma RoutedRoutes(cfg: Config, st: Start, s: State, j: Job, issue: Issue)
    requires RoutesAgree(st, s) && j.id !in s.w.used && j.task in s.place
    requires s.place[j.task].Queued? || s.place[j.task].InHand?
    ensures RoutesAgree(st, JobRouted(cfg, s, j, issue))
  {
  }

  lemma SpawnPlaces(cfg: Config, s: State, plan: TaskPlan, rest: seq<TaskPlan>, j: Job, issue: Issue)
    requires PlacesAgree(s, [plan] + rest, {}) && j.task == plan.taskId
    ensures plan.taskId in s.place && s.place[plan.taskId].Queued?
    ensures PlacesAgree(JobRouted(cfg, s, j, issue), rest, {})
  {
    HeadIds(plan, rest);
    assert plan.taskId in s.place;
  }

  /** A task that has not run this round is started. */
  lemma SpawnLive(cfg: Config, st: Start, s: State, plan: TaskPlan, rest: seq<TaskPlan>, j: Job, issue: Issue)
    requires ConfigOk(cfg) && Live(cfg, st, s, [plan] + rest, {}) && j.task == plan.taskId && j.attempt == 0
    requires plan.taskId in s.issues ==> s.issues[plan.taskId].meta.status.Pending?
    requires Spawns(s, j, issue)
    ensures Live(cfg, st, JobRouted(cfg, s, j, issue), rest, {})
  {
    hide OneJobEach, CountJobs, Since, Trusted, HasVerdict;
    var t := plan.taskId;
    SpawnPlaces(cfg, s, plan, rest, j, issue);
    hide PlacesAgree;
    assert TaskOk(cfg, st, s, t);
    assert OpenAtStart(st, s.w.round, t);
    hide TaskOk, RoutesAgree, ConfigOk;
    RoutedLive(cfg, st, s, [plan] + rest, {}, rest, j, issue);
  }

  /** What the head of the queue may do if it has not run this round. */
  lemma HeadMayStart(cfg: Config, st: Start, s: State, plan: TaskPlan, rest: seq<TaskPlan>)
    requires Live(cfg, st, s, [plan] + rest, {})
    ensures plan.taskId in s.w.planned && CountJobs(s.w.jobs, s.w.round, plan.taskId) == 0
    ensures plan.taskId in s.issues ==> s.issues[plan.taskId].meta.id == plan.taskId
    ensures s.w.round == 0 && (plan.taskId in s.issues ==> s.issues[plan.taskId].meta.status.Pending?) ==>
      UnstartedAt(st, plan.taskId)
  {
    HeadIds(plan, rest);
    assert s.place[plan.taskId].Queued? && TaskOk(cfg, st, s, plan.taskId);
  }

  /** What is known about the task in hand. */
  lemma HandFacts(cfg: Config, st: Start, s: State, q: seq<TaskPlan>, t: TaskId)
    requires Live(cfg, st, s, q, {t})
    ensures t in s.w.planned && t in s.issues && s.issues[t].meta.id == t && Progressed(s, t)
    ensures t in s.w.released && t !in s.w.reported
  {
    assert s.place[t].InHand? && TaskOk(cfg, st, s, t);
  }

  /** A rejected attempt is followed by the next one. */
  lemma RetryLive(cfg: Config, st: Start, s: State, t: TaskId, j: Job, issue: Issue)
    requires ConfigOk(cfg) && Live(cfg, st, s, [], {t}) && j.task == t && OpenAtStart(st, s.w.round, t)
    requires Spawns(s, j, issue)
    ensures Live(cfg, st, JobRouted(cfg, s, j, issue), [], {})
  {
    hide OneJobEach, CountJobs, Since, Trusted, HasVerdict;
    assert s.place[t].InHand? && TaskOk(cfg, st, s, t);
    RoutedLive(cfg, st, s, [], {t}, [], j, issue);
  }

  function Adopted(s: State, t: TaskId, j: JobId): State {
    s.(jobToTask := s.jobToTask[j := t], place := s.place[t := Running(j)])
  }

  /** On resume, a job that is still running is routed again. */
  lemma AdoptLive(cfg: Config, st: Start, s: State, q: seq<TaskPlan>, t: TaskId, j: JobId)
    requires Live(cfg, st, s, q, {t}) && !st.isNew && t in s.issues && OpenAtStart(st, s.w.round, t)
    requires s.issues[t].meta.status.Spawned? && s.issues[t].meta.jobId == Some(j)
    ensures Live(cfg, st, Adopted(s, t, j), q, {})
  {
    hide CountJobs, Since, Trusted, HasVerdict, OneJobEach;
    var s' := Adopted(s, t, j);
    assert s.place[t].InHand? && TaskOk(cfg, st, s, t);
    assert TaskOk(cfg, st, s', t);
    AdoptOthers(cfg, st, s, t, j);
    AdoptRoutes(st, s, t, j);
    hide TaskOk, SameFor, RoutesAgree;
    OneTaskMoves(cfg, st, s, q, {t}, s', q, {}, t);
  }

  lemma AdoptOthers(cfg: Config, st: Start, s: State, t: TaskId, j: JobId)
    requires Counted(s) && RoutesAgree(st, s) && (forall u :: u in s.place ==> TaskOk(cfg, st, s, u)) &&
      t in s.place && t in s.issues
    requires (Separate(st, s) ==> OneJobEach(s.place.Keys, s.issues)) && s.issues[t].meta.jobId == Some(j)
    ensures forall u :: u in s.place && u != t ==> SameFor(st, s, Adopted(s, t, j), u)
  {
    hide CountJobs, Since, Trusted, HasVerdict, Untouched, Settled;
    forall u | u in s.place && u != t ensures SameFor(st, s, Adopted(s, t, j), u) {
      assert TaskOk(cfg, st, s, u);
    }
  }

  lemma AdoptRoutes(st: Start, s: State, t: TaskId, j: JobId)
    requires RoutesAgree(st, s) && !st.isNew && t in s.place && s.place[t].InHand? && j in s.w.used
    ensures RoutesAgree(st, Adopted(s, t, j))
  {
  }

  // ---- Waves ----

  function WaveQueued(s: State, wave: seq<TaskPlan>): State {
    s.(w := Released(s.w, wave), place := map u | u in s.place :: if u in Ids(wave) then Queued else s.place[u])
  }

  /** The kernel releases more tasks of the round. */
  lemma WaveLive(cfg: Config, st: Start, s: State, q: seq<TaskPlan>, wave: seq<TaskPlan>)
    requires Live(cfg, st, s, q, {}) && FreshWave(s.w, wave)
    ensures Live(cfg, st, WaveQueued(s, wave), q + wave, {})
  {
    hide OneJobEach;
    var s' := WaveQueued(s, wave);
    WavePlaces(st, s, q, wave);
    forall u | u in s'.place ensures TaskOk(cfg, st, s', u) {
      WaveTask(cfg, st, s, wave, u);
    }
  }

  lemma WaveSafe(cfg: Config, st: Start, s: State, wave: seq<TaskPlan>)
    requires Safe(cfg, st, s)
    ensures Safe(cfg, st, WaveQueued(s, wave))
  {
    SafeFrame(cfg, st, s, WaveQueued(s, wave));
  }

  lemma WavePlaces(st: Start, s: State, q: seq<TaskPlan>, wave: seq<TaskPlan>)
    requires PlacesAgree(s, q, {}) && RoutesAgree(st, s) && FreshWave(s.w, wave)
    ensures PlacesAgree(WaveQueued(s, wave), q + wave, {}) && RoutesAgree(st, WaveQueued(s, wave))
    ensures forall u :: u in Ids(wave) ==> u in s.place && s.place[u].Waiting?
  {
    assert forall u :: u in Ids(wave) ==> u in s.place && s.place[u].Waiting?;
    AppendIds(q, wave);
  }

  lemma WaveTask(cfg: Config, st: Start, s: State, wave: seq<TaskPlan>, u: TaskId)
    requires Counted(s) && u in s.place && TaskOk(cfg, st, s, u)
    requires u in Ids(wave) ==> s.place[u].Waiting?
    ensures TaskOk(cfg, st, WaveQueued(s, wave), u)
  {
  }

  lemma WaveShrinks(w: World, wave: seq<TaskPlan>)
    requires FreshWave(w, wave) && wave != []
    ensures |w.planned - Released(w, wave).released| < |w.planned - w.released|
  {
    assert wave[0].taskId in Ids(wave);
    Shrinks(w.planned - w.released, w.planned - (w.released + Ids(wave)), wave[0].taskId);
  }

  lemma Shrinks(a: set<TaskId>, b: set<TaskId>, x: TaskId)
    requires b <= a && x in a && x !in b
    ensures |b| < |a|
  {
    assert b <= a - {x};
    SubsetSize(b, a - {x});
  }

  lemma {:induction false} SubsetSize(b: set<TaskId>, a: set<TaskId>)
    requires b <= a
    ensures |b| <= |a|
  {
    if b != {} {
      var x :| x in b;
      SubsetSize(b - {x}, a - {x});
    }
  }

  lemma RoundFacts(cfg: Config, st: Start, s: State, q: seq<TaskPlan>, hand: set<TaskId>)
    requires Safe(cfg, st, s) && Live(cfg, st, s, q, hand)
    ensures s.round == s.w.round && s.w.planned == ToSet(cfg.tasks) && Named(s.w.planned, s.issues) && Counted(s)
    ensures forall k :: 0 <= k < |s.marks| ==> s.marks[k] <= |s.chain|
  {
  }

  /** The jobs named in the plan's issues are in use. */
  lemma JobsKnown(cfg: Config, st: Start, s: State, q: seq<TaskPlan>, hand: set<TaskId>)
    requires Live(cfg, st, s, q, hand)
    ensures forall t :: t in s.w.planned && t in s.issues && s.issues[t].meta.jobId.Some? ==>
      s.issues[t].meta.jobId.value in s.w.used
  {
    hide Untouched, Progressed, Settled, OpenAtStart;
    assert forall t :: t in s.place ==> TaskOk(cfg, st, s, t);
  }

  lemma AnswerAt(cfg: Config, st: Start, s: State, t: TaskId)
    requires Safe(cfg, st, s) && t in s.w.planned && t in s.issues
    ensures AnswerOk(cfg, st, s.w.jobs, s.w.heard, t, s.issues[t])
  {
  }

  lemma AnswerLegible(cfg: Config, st: Start, jobs: seq<Job>, heard: seq<Heard>, t: TaskId, issue: Issue)
    requires AnswerOk(cfg, st, jobs, heard, t, issue)
    ensures Legible(cfg, st, t) ==> cfg.legible(issue.prompt)
  {
  }

  lemma PendingUnanchored(m: IssueMeta, chain: seq<Record>)
    requires m.status.Pending?
    ensures Anchored(m, chain)
  {
  }

  lemma SpawnedUnanchored(m: IssueMeta, chain: seq<Record>)
    requires m.status.Spawned?
    ensures Anchored(m, chain)
  {
  }

  lemma PositiveWidth(cfg: Config, r: Record)
    requires ConfigOk(cfg)
    ensures cfg.width(r) > 0
  {
  }

  lemma RoundsBefore(cfg: Config, st: Start, s: State)
    requires Safe(cfg, st, s)
    ensures forall k :: 0 <= k < |s.w.jobs| ==> s.w.jobs[k].round <= s.w.round
  {
  }

  lemma RoundCovered(cfg: Config, st: Start, s: State)
    requires Safe(cfg, st, s)
    ensures s.w.round <= |s.sigs|
  {
  }

  lemma SamePut(cfg: Config, s: State, r: Record)
    ensures Put(cfg, s, r, 0) == s
  {
  }

  lemma SealSeen(cfg: Config, st: Start, s: State)
    requires Safe(cfg, st, s) && !s.seal.view.Broken?
    ensures s.seal.view.recs == s.chain
  {
  }

  lemma RereadMeta(cfg: Config, issue: Issue)
    requires ConfigOk(cfg)
    ensures cfg.reread(issue).meta == issue.meta
  {
  }

  lemma SealGrew(cfg: Config, st: Start, s: State)
    requires Safe(cfg, st, s) && s.seal.Readable()
    ensures st.seal.Readable()
  {
  }

  lemma SafeCounted(cfg: Config, st: Start, s: State)
    requires Safe(cfg, st, s)
    ensures Counted(s)
  {
  }

  // ---- Rounds ----

  /** When the kernel says the plan is complete, nothing is queued, running or being judged. */
  lemma DrainedIsIdle(cfg: Config, st: Start, s: State, q: seq<TaskPlan>)
    requires Live(cfg, st, s, q, {}) && s.w.released == s.w.reported
    ensures q == [] && s.jobToTask == map[] && s.w.inflight == {}
    ensures forall t :: t in s.place ==> s.place[t].Waiting? || s.place[t].Told?
  {
    assert forall t :: t in s.place ==> s.place[t].Waiting? || s.place[t].Told?;
    assert Ids(q) == {};
    NonEmptyIds(q);
    assert s.jobToTask.Keys == {};
  }

  lemma NonEmptyIds(q: seq<TaskPlan>)
    ensures q != [] ==> Ids(q) != {}
  {
    if q != [] {
      assert q[0].taskId in Ids(q);
    }
  }

  function ResetMeta(m: IssueMeta): IssueMeta {
    m.(status := Pending, jobId := None, responseSha := None, seal := None, attempt := 0, verdictSeal := None)
  }

  function Reset(issue: Issue): Issue {
    issue.(meta := ResetMeta(issue.meta), response := None)
  }

  /** Every stored issue named in `ids` reset, in order. */
  function ResetAll(cfg: Config, issues: map<TaskId, Issue>, ids: seq<TaskId>): map<TaskId, Issue> {
    if ids == [] then issues
    else
      var id := ids[|ids| - 1];
      var before := ResetAll(cfg, issues, ids[..|ids| - 1]);
      if id in before then before[id := cfg.reread(Reset(before[id]))] else before
  }

  /** A re-plan resets exactly the named issues: no job, no seals, attempt 0, and nothing else changes. */
  lemma {:induction false} ResetAllMeans(cfg: Config, issues: map<TaskId, Issue>, ids: seq<TaskId>)
    requires ConfigOk(cfg)
    ensures ResetAll(cfg, issues, ids).Keys == issues.Keys
    ensures forall t :: t in issues && t in ToSet(ids) ==>
      ResetAll(cfg, issues, ids)[t].meta == ResetMeta(issues[t].meta)
    ensures forall t :: t in issues && t !in ToSet(ids) ==> ResetAll(cfg, issues, ids)[t] == issues[t]
  {
    if ids != [] {
      var n := |ids| - 1;
      ResetAllMeans(cfg, issues, ids[..n]);
      assert ToSet(ids) == ToSet(ids[..n]) + {ids[n]} by {
        assert forall i :: 0 <= i < n ==> ids[..n][i] == ids[i];
      }
    }
  }

  function RoundPlaces(planned: set<TaskId>, wave: seq<TaskPlan>): map<TaskId, Place> {
    map u | u in planned :: if u in Ids(wave) then Queued else Waiting
  }

  /** `s'` is the drained state `s` in its next round: the named issues reset, the first wave queued. */
  ghost predicate NextRound(cfg: Config, s: State, s': State, wave: seq<TaskPlan>, ids: seq<TaskId>) {
    s'.round == s'.w.round == s.w.round + 1 && s'.w.resets == s.w.resets + [ToSet(ids)] &&
    s'.marks == s.marks + [|s.chain|] && s.chain <= s'.chain &&
    s'.w.planned == s.w.planned && s'.w.released == Ids(wave) && s'.w.reported == {} &&
    s'.w.jobs == s.w.jobs && s'.w.used == s.w.used && s'.w.heard == s.w.heard && s'.w.inflight == s.w.inflight &&
      s'.jobToTask == s.jobToTask &&
    s'.issues == ResetAll(cfg, s.issues, ids) && s'.place == RoundPlaces(s.w.planned, wave)
  }

  /** The named issues reset and nothing else, in a round that starts those tasks over with a first wave among them. */
  ghost predicate RestartedFrom(cfg: Config, s: State, s': State, wave: seq<TaskPlan>, ids: seq<TaskId>) {
    s'.issues == ResetAll(cfg, s.issues, ids) && s'.w.resets == s.w.resets + [ToSet(ids)] && s'.w.sent == s.w.sent &&
    s'.w.jobs == s.w.jobs && Ids(wave) <= ToSet(ids) && Distinct(wave) && s.chain <= s'.chain
  }

  /** `s1` is the drained state `s` after the kernel opened its next round and the named issues were reset. */
  ghost predicate Reopened(cfg: Config, s: State, s1: State, wave: seq<TaskPlan>, ids: seq<TaskId>) {
    s1.w == NewRound(s.w, wave, ToSet(ids)).(disks := s1.w.disks) && s1.marks == s.marks + [|s.chain|] &&
      s.chain <= s1.chain &&
    s1.jobToTask == s.jobToTask && s1.issues == ResetAll(cfg, s.issues, ids)
  }

  /** `s1` is the drained state `s` after the kernel opened its next round; no issue has been reset yet. */
  ghost predicate RoundBegun(s: State, s1: State, wave: seq<TaskPlan>, ids: seq<TaskId>) {
    s1.w == NewRound(s.w, wave, ToSet(ids)).(disks := s1.w.disks) && s1.marks == s.marks + [|s.chain|] &&
      s.chain <= s1.chain &&
    s1.jobToTask == s.jobToTask && s1.issues == s.issues && s1.round == s.round
  }

  lemma ReopenedIsNext(cfg: Config, s: State, s1: State, wave: seq<TaskPlan>, ids: seq<TaskId>)
    requires Reopened(cfg, s, s1, wave, ids) && Distinct(wave) && Ids(wave) <= ToSet(ids)
    ensures NextRound(cfg, s, RoundEntered(s1, wave), wave, ids) &&
      RestartedFrom(cfg, s, RoundEntered(s1, wave), wave, ids)
  {
  }

  lemma RestartedAfterNote(cfg: Config, s: State, sig: string, s': State, wave: seq<TaskPlan>, ids: seq<TaskId>)
    requires RestartedFrom(cfg, Noted(s, sig), s', wave, ids)
    ensures RestartedFrom(cfg, s, s', wave, ids)
  {
  }

  lemma RestartedAfterPut(cfg: Config, s: State, r: Record, n: nat, s': State, wave: seq<TaskPlan>, ids: seq<TaskId>)
    requires RestartedFrom(cfg, Put(cfg, s, r, n), s', wave, ids)
    ensures RestartedFrom(cfg, s, s', wave, ids)
  {
  }

  /** Resetting issues takes jobs away and gives none. */
  lemma ResetSeparate(cfg: Config, issues: map<TaskId, Issue>, ids: seq<TaskId>, tasks: set<TaskId>)
    requires ConfigOk(cfg) && OneJobEach(tasks, issues)
    ensures OneJobEach(tasks, ResetAll(cfg, issues, ids))
  {
    ResetAllMeans(cfg, issues, ids);
    hide ResetAll, ToSet, ConfigOk;
  }

  /** A drained run goes on in its next round. */
  lemma RoundLive(cfg: Config, st: Start, s: State, s': State, wave: seq<TaskPlan>, ids: seq<TaskId>)
    requires ConfigOk(cfg) && Live(cfg, st, s, [], {}) && s.w.released == s.w.reported
    requires forall k :: 0 <= k < |s.w.jobs| ==> s.w.jobs[k].round <= s.w.round
    requires NextRound(cfg, s, s', wave, ids) && Distinct(wave) && Ids(wave) <= s.w.planned
    ensures Live(cfg, st, s', wave, {})
  {
    hide TaskOk, OneJobEach, ResetAll, ConfigOk;
    assert s'.place.Keys == s.place.Keys;
    DrainedIsIdle(cfg, st, s, []);
    if Separate(st, s) {
      ResetSeparate(cfg, s.issues, ids, s.place.Keys);
    }
    forall u | u in s'.place ensures TaskOk(cfg, st, s', u) {
      RoundTask(cfg, st, s, s', wave, ids, u);
    }
  }

  lemma RoundTask(cfg: Config, st: Start, s: State, s': State, wave: seq<TaskPlan>, ids: seq<TaskId>, u: TaskId)
    requires ConfigOk(cfg) && |s.w.resets| == |s.marks| == s.w.round + 1 && u in s.place && u in s.w.planned
    requires TaskOk(cfg, st, s, u) && (s.place[u].Waiting? || s.place[u].Told?)
    requires forall k :: 0 <= k < |s.w.jobs| ==> s.w.jobs[k].round <= s.w.round
    requires NextRound(cfg, s, s', wave, ids)
    ensures TaskOk(cfg, st, s', u)
  {
    ResetAllMeans(cfg, s.issues, ids);
    CountFutureRound(s.w.jobs, s'.w.round, u);
    hide ResetAll, ConfigOk, CountJobs, OneJobEach, Trusted;
    if u !in ToSet(ids) {
      VettedNext(cfg, st, s, s', u, ToSet(ids));
    }
  }

  /** A task the next round does not start over is vetted, and settled, as before. */
  lemma VettedNext(cfg: Config, st: Start, s: State, s': State, u: TaskId, reset: set<TaskId>)
    requires |s.w.resets| == |s.marks| == s.w.round + 1 && u !in reset
    requires s'.w.round == s.w.round + 1 && s'.w.resets == s.w.resets + [reset] && s'.marks == s.marks + [|s.chain|] &&
      s.chain <= s'.chain
    requires (u in s.issues <==> u in s'.issues) && (u in s.issues ==> s'.issues[u] == s.issues[u])
    ensures Vetted(cfg, st, s', u) == Vetted(cfg, st, s, u)
    ensures Settled(cfg, st, s, u) ==> Settled(cfg, st, s', u)
  {
    var round := s.w.round;
    TrustedKept(st, s.w.resets, reset, u, round);
    SinceKept(st, s.w.resets, s.marks, reset, |s.chain|, u, round);
    assert s'.w.resets[round + 1] == reset;
    assert Since(st, s'.w.resets, s'.marks, u, round + 1) == Since(st, s'.w.resets, s'.marks, u, round);
    assert Trusted(st, s'.w.resets, u, round + 1) == Trusted(st, s'.w.resets, u, round);
  }

  function Noted(s: State, sig: string): State {
    s.(lastSig := Some(sig), sigs := s.sigs + [sig])
  }

  /** A failure signature is remembered only when it differs from the last one. */
  lemma NotedSafe(cfg: Config, st: Start, s: State, sig: string)
    requires Safe(cfg, st, s) && s.lastSig != Some(sig)
    ensures Safe(cfg, st, Noted(s, sig))
  {
    hide ReportsSafe, JobsSafe, Anchored, ViewAfter;
    HistorySafe(cfg, st, s, Noted(s, sig));
  }

  lemma NotedLive(cfg: Config, st: Start, s: State, q: seq<TaskPlan>, hand: set<TaskId>, sig: string)
    requires Live(cfg, st, s, q, hand)
    ensures Live(cfg, st, Noted(s, sig), q, hand)
  {
    hide OneJobEach, CountJobs, Since, Trusted;
    var s' := Noted(s, sig);
    forall u | u in s'.place ensures TaskOk(cfg, st, s', u) {
      TaskFrame(cfg, st, s, s', u);
    }
  }

  function RoundEntered(s: State, wave: seq<TaskPlan>): State {
    s.(round := s.w.round, place := RoundPlaces(s.w.planned, wave))
  }

  lemma RoundEnteredSafe(cfg: Config, st: Start, s: State, wave: seq<TaskPlan>)
    requires Safe(cfg, st, s)
    ensures Safe(cfg, st, RoundEntered(s, wave))
  {
    SafeFrame(cfg, st, s, RoundEntered(s, wave));
  }
}
