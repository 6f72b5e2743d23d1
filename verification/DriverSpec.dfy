/** What the actor's steps write and report, and what it hears from outside, told without its code. */
module DriverSpec {
  import opened Wrappers
  import opened Text
  import opened Seal
  import opened IssueFile
  import opened Compose
  import opened World
  import opened DriverState

  // ---- Numbers and phrases ----

  function Decimal(n: nat): string {
    if n < 10 then [('0' as int + n) as char] else Decimal(n / 10) + [('0' as int + n % 10) as char]
  }

  /** The number a string of digits stands for. */
  function Value(digits: string): int {
    if digits == "" then 0
    else 10 * Value(digits[..|digits| - 1]) + (digits[|digits| - 1] as int - '0' as int)
  }

  predicate IsNumeral(digits: string) {
    digits != "" && (|digits| > 1 ==> digits[0] != '0') && forall i :: 0 <= i < |digits| ==> '0' <= digits[i] <= '9'
  }

  /** Decimal numerals without leading zeros, with their value. */
  lemma {:induction false} DecimalMeans(n: nat)
    ensures IsNumeral(Decimal(n)) && Value(Decimal(n)) == n && (n > 0 ==> Decimal(n)[0] != '0')
  {
    if n >= 10 {
      DecimalMeans(n / 10);
      assert Decimal(n)[..|Decimal(n)| - 1] == Decimal(n / 10);
    } else {
      assert Decimal(n)[..0] == "";
    }
  }

  function Signed(n: i32): string {
    var m: int := n;
    if m < 0 then "-" + Decimal(-m) else Decimal(m)
  }

  const ATTEMPT := "\n\n---\nAttempt "
  const CHECKED := ": the acceptance" + " check `"
  const OUTPUT := "` failed. Its output was:\n```\n"
  const FIX := "\n```\nFix the underlying cause so `"
  const STOP := "` passes, then stop."

  /** The self-repair prompt: behind the prompt the attempt, the command in backquotes, the output between fences, and
      the command in backquotes again. */
  function RetryBody(prompt: string, command: string, tail: string, attempt: nat): string {
    prompt + ((ATTEMPT + Decimal(attempt) + CHECKED) + (command + (OUTPUT + (tail + (FIX + (command + STOP))))))
  }

  /** The text is `prompt`, and behind it the attempt as a numeral, the command in backquotes, the output between two
      fences, and the command in backquotes again. */
  ghost predicate SelfRepair(text: string, prompt: string, command: string, tail: string, attempt: nat) {
    exists digits :: IsNumeral(digits) && Value(digits) == attempt &&
      text == Concat(RepairParts(prompt, digits, command, tail))
  }

  function RepairParts(prompt: string, digits: string, command: string, tail: string): seq<string> {
    [prompt, "\n\n---\nAttempt ", digits, ": the acceptance" + " check `", command,
     "` failed. Its output was:\n```\n", tail, "\n```\nFix the underlying cause so `", command, "` passes, then stop."]
  }

  lemma RetryBodyReads(prompt: string, command: string, tail: string, attempt: nat)
    ensures SelfRepair(RetryBody(prompt, command, tail, attempt), prompt, command, tail, attempt)
  {
    DecimalMeans(attempt);
    var digits := Decimal(attempt);
    TenParts(prompt, ATTEMPT, digits, CHECKED, command, OUTPUT, tail, FIX, command, STOP);
    Lead(ATTEMPT, digits, CHECKED, command + (OUTPUT + (tail + (FIX + (command + STOP)))));
    assert RepairParts(prompt, digits, command, tail) ==
      [prompt, ATTEMPT, digits, CHECKED, command, OUTPUT, tail, FIX, command, STOP];
    hide Decimal, IsNumeral, Value, Concat, RepairParts, ATTEMPT, CHECKED, OUTPUT, FIX, STOP;
  }

  lemma Lead(a: string, b: string, c: string, rest: string)
    ensures (a + b + c) + rest == a + (b + (c + rest))
  {
  }

  lemma TenParts(a: string, b: string, c: string, d: string, e: string, f: string, g: string, h: string, i: string,
    j: string)
    ensures Concat([a, b, c, d, e, f, g, h, i, j]) == a + (b + (c + (d + (e + (f + (g + (h + (i + j))))))))
  {
    hide Concat;
    assert [a, b, c, d, e, f, g, h, i, j] == [a] + ([b] + ([c] + ([d] + ([e] + ([f] + ([g] + ([h] + ([i] + [j]))))))));
    ConcatCons(a, [b] + ([c] + ([d] + ([e] + ([f] + ([g] + ([h] + ([i] + [j]))))))));
    ConcatCons(b, [c] + ([d] + ([e] + ([f] + ([g] + ([h] + ([i] + [j])))))));
    ConcatCons(c, [d] + ([e] + ([f] + ([g] + ([h] + ([i] + [j]))))));
    ConcatCons(d, [e] + ([f] + ([g] + ([h] + ([i] + [j])))));
    ConcatCons(e, [f] + ([g] + ([h] + ([i] + [j]))));
    ConcatCons(f, [g] + ([h] + ([i] + [j])));
    ConcatCons(g, [h] + ([i] + [j]));
    ConcatCons(h, [i] + [j]);
    ConcatCons(i, [j]);
    ConcatOne(j);
  }

  function RejectReason(command: string, attempts: nat, exitCode: i32): string {
    "acceptance `" + command + "` failed after " + Decimal(attempts) + " attempt(s) (exit " + Signed(exitCode) + ")"
  }

  function IntegrationFailed(command: string, exitCode: i32, round: nat): string {
    "integration failed: `" + command + "` exit " + Signed(exitCode) + " (after " + Decimal(round) + " re-plan(s))"
  }


  // ---- What the steps write ----

  predicate Unstarted(issues: map<TaskId, Issue>, t: TaskId) {
    t in issues ==> issues[t].meta.status.Pending?
  }

  /** The contexts of a task's dependencies, in their order: who answered, and what is stored as the response. */
  predicate DepsOf(issues: map<TaskId, Issue>, dependsOn: seq<TaskId>, deps: seq<DepContext>) {
    |deps| == |dependsOn| &&
    forall i :: 0 <= i < |deps| ==>
      dependsOn[i] in issues && issues[dependsOn[i]].response == Some(deps[i].response) &&
      deps[i].taskId == dependsOn[i] && deps[i].agent == issues[dependsOn[i]].meta.agent
  }

  /** No response of the task is stored. */
  predicate Unanswered(issues: map<TaskId, Issue>, t: TaskId) {
    t !in issues || issues[t].response.None?
  }

  /** A task is said to miss a dependency only if no response of it is stored. */
  predicate Excused(issues: map<TaskId, Issue>, plan: TaskPlan, ev: seq<Event>) {
    forall i :: 0 <= i < |ev| && ev[i].Missing? ==>
      ev[i].waiting == plan.taskId && ev[i].dep in plan.dependsOn && Unanswered(issues, ev[i].dep)
  }

  lemma FaultExcused(issues: map<TaskId, Issue>, plan: TaskPlan, log: seq<Event>, what: string)
    ensures Excused(issues, plan, (log + [Fault(what)])[|log|..])
  {
  }

  function SpawnedIssue(plan: TaskPlan, job: JobId, prompt: string): Issue {
    Issue(IssueMeta(plan.taskId, plan.title, plan.agent, plan.dependsOn, Spawned, Some(job), None, None, 0, None),
      prompt, None)
  }

  function AsVerifying(issue: Issue): Issue {
    issue.(meta := issue.meta.(status := Verifying))
  }

  function WithVerdict(issue: Issue, hash: string): Issue {
    issue.(meta := issue.meta.(verdictSeal := Some(hash)))
  }

  function RetryIssue(issue: Issue, job: JobId, body: string): Issue
    requires issue.meta.attempt + 1 < 0x1_0000_0000
  {
    Issue(issue.meta.(attempt := issue.meta.attempt + 1, status := Spawned, jobId := Some(job), responseSha := None),
      body, None)
  }

  /** The issue after its job's final response; without a response file the task failed. */
  function Absorbed(issue: Issue, ev: FinalResponse, seal: string): Issue {
    if ev.path.Some? then
      issue.(meta := issue.meta.(status := Done, responseSha := ev.sha, seal := Some(seal)), response := Some(ev.text))
    else issue.(meta := issue.meta.(status := Failed), response := Some(ev.preview))
  }

  function OutcomeOf(ev: FinalResponse): TaskOutcome {
    if ev.path.Some? then OutcomeDone(ev.path.value) else OutcomeFailed(ev.preview)
  }

  /** What a settled issue is reported as. */
  function SettledOutcome(issue: Issue): TaskOutcome {
    match issue.meta.status
    case Failed => OutcomeFailed(issue.response.GetOr("failed"))
    case Rejected => OutcomeFailed("acceptance oracle rejected after max attempts")
    case _ => OutcomeDone(issue.meta.id + ".md")
  }

  predicate IsOutput(r: Record, task: TaskId, agent: string, sha: Option<string>, path: string) {
    r.kind.DispatchOutput? && r.taskId == task && r.agent == agent && r.responseSha == sha && r.responsePath == path
  }

  predicate IsVerdictOf(r: Record, task: TaskId, agent: string, attempt: nat, command: string,
    result: AcceptanceResult) {
    IsVerdict(r, task, attempt, result.exitCode == 0) && r.agent == agent && r.acceptCommand == Some(command) &&
    r.exitCode == Some(result.exitCode)
  }

  /** The kernel's round is where it was. */
  ghost predicate SameRound(s: State, s': State) {
    s'.round == s.round && s'.w.round == s.w.round && s'.w.planned == s.w.planned && s'.w.released == s.w.released &&
    s'.w.reported == s.w.reported && s'.w.resets == s.w.resets && s'.w.sent == s.w.sent
  }

  // ---- What the actor hears ----

  /** What comes back from outside, in order: replies, results and failures; the oracles it starts; and what it closes
      its run with. */
  datatype Event =
    | AdvanceSaid(advance: AdvanceReply)
    | FinalizeSaid(round: nat, tail: string, finalize: FinalizeReply)
    | AuthorizeSaid(authorize: AuthorizeReply)
    | Integrated(command: string, at: nat, last: Option<string>, result: AcceptanceResult)
    | OracleStarted(task: TaskId, attempt: nat, oracle: string)
    | Fault(what: string)
    | Missing(waiting: TaskId, dep: TaskId)
    | Vanished(id: TaskId)
    | AbortSaid
    | Closing(reason: string)

  predicate IsError(e: Event) {
    e.Fault? || e.Missing? || e.Vanished? || (e.AdvanceSaid? && e.advance.AdvanceError?)
  }

  /** What a step that failed on this event says. */
  function ErrorText(e: Event): string
    requires IsError(e)
  {
    match e
    case Fault(what) => what
    case Missing(waiting, dep) => "task `" + waiting + "` depends on `" + dep + "`, whose response was never captured"
    case Vanished(id) => "spawn detached task `" + id + "`: issue vanished before its verdict"
    case AdvanceSaid(reply) => "kernel advance: " + reply.why
  }

  /** The step failed on the last event, with this error. */
  predicate FailsAt(log: seq<Event>, error: string) {
    log != [] && IsError(log[|log| - 1]) && error == ErrorText(log[|log| - 1])
  }

  /** Oracles are the configured ones, and so are the integration command and the number of rounds. */
  predicate EventOk(cfg: Config, e: Event) {
    match e
    case OracleStarted(t, _, oracle) => t in cfg.accept && oracle == cfg.accept[t].command
    case Integrated(command, _, _, _) => cfg.globalAccept == Some(command)
    case FinalizeSaid(round, _, _) => round < cfg.maxReplans
    case _ => true
  }

  predicate LogOk(cfg: Config, log: seq<Event>) {
    forall i :: 0 <= i < |log| ==> EventOk(cfg, log[i])
  }

  /** The plans that were released, in order. */
  function Waves(log: seq<Event>): seq<TaskPlan> {
    if log == [] then [] else Waves(log[..|log| - 1]) + WaveIn(log[|log| - 1])
  }

  function WaveIn(e: Event): seq<TaskPlan> {
    match e
    case AdvanceSaid(reply) => if reply.NextWave? then reply.wave else []
    case FinalizeSaid(_, _, reply) => if reply.Replan? then reply.rewave else []
    case AuthorizeSaid(reply) => if reply.Authorized? then reply.first else []
    case _ => []
  }

  lemma WavesSnoc(log: seq<Event>, e: Event)
    ensures Waves(log + [e]) == Waves(log) + WaveIn(e)
  {
    assert (log + [e])[..|log|] == log;
  }

  lemma {:induction false} WavesAppend(log: seq<Event>, more: seq<Event>)
    ensures Waves(log + more) == Waves(log) + Waves(more)
  {
    if more == [] {
      assert log + more == log;
    } else {
      hide Waves;
      var fewer, e := more[..|more| - 1], more[|more| - 1];
      WavesAppend(log, fewer);
      WavesAppendOne(log, fewer, e);
      assert fewer + [e] == more;
    }
  }

  lemma WavesAppendOne(log: seq<Event>, more: seq<Event>, e: Event)
    requires Waves(log + more) == Waves(log) + Waves(more)
    ensures Waves(log + (more + [e])) == Waves(log) + Waves(more + [e])
  {
    hide Waves, WaveIn;
    WavesSnoc(log + more, e);
    WavesSnoc(more, e);
    assert (log + more) + [e] == log + (more + [e]);
  }

  /** A step at most starts an oracle. */
  predicate AtMostOracle(log: seq<Event>, log': seq<Event>) {
    log' == log || (|log'| == |log| + 1 && log <= log' && log'[|log|].OracleStarted?)
  }

  /** A queue of which the head is done and to which `released` is added, against all there was to do. */
  lemma Fed(done: seq<TaskPlan>, plan: TaskPlan, rest: seq<TaskPlan>, released: seq<TaskPlan>, wave: seq<TaskPlan>,
    more: seq<TaskPlan>)
    requires done + ([plan] + rest) == wave + more
    ensures (done + [plan]) + (rest + released) == wave + (more + released)
    ensures (done + [plan]) + rest == wave + more
  {
    assert (done + [plan]) + (rest + released) == (done + ([plan] + rest)) + released;
    assert (done + [plan]) + rest == done + ([plan] + rest);
  }

  lemma WavesGrow(log: seq<Event>, more: seq<TaskPlan>, released: seq<TaskPlan>)
    ensures (Waves(log) + more) + released == Waves(log) + (more + released)
  {
  }

  lemma SameWaves(log: seq<Event>, log': seq<Event>)
    requires AtMostOracle(log, log')
    ensures Waves(log') == Waves(log)
  {
    if log' != log {
      WavesSnoc(log, log'[|log|]);
      assert log + [log'[|log|]] == log' && Waves(log) + [] == Waves(log);
    }
  }

  // ---- What is never forgotten ----

  /** What has been reported, spawned, heard, stored, sealed and told so far; the records the actor has tried to seal;
      and how often the run's own file could not be read or written. */
  datatype History = History(
    sent: seq<Report>, jobs: seq<Job>, heard: seq<Heard>, disks: seq<Disk>, chain: seq<Record>, log: seq<Event>,
    tried: seq<Record>, runFaults: nat)

  predicate Grew(h: History, h': History) {
    h.sent <= h'.sent && h.jobs <= h'.jobs && h.heard <= h'.heard && h.disks <= h'.disks && h.chain <= h'.chain &&
    h.log <= h'.log && h.tried <= h'.tried && h.runFaults <= h'.runFaults
  }

  /** Nothing was reported, spawned or judged since. */
  predicate GrewQuietly(h: History, h': History) {
    Grew(h, h') && h'.sent == h.sent && h'.jobs == h.jobs && Unjudged(h.chain, h'.chain)
  }

  /** Nothing was spawned or judged since, and one outcome reported. */
  predicate GrewByReport(h: History, h': History, report: Report) {
    Grew(h, h') && h'.sent == h.sent + [report] && h'.jobs == h.jobs && Unjudged(h.chain, h'.chain)
  }

  /** What was added to the chain holds no acceptance verdict. */
  predicate Unjudged(chain: seq<Record>, chain': seq<Record>) {
    forall k :: |chain| <= k < |chain'| ==> !chain'[k].kind.AcceptanceVerdict?
  }

  function HistoryOf(s: State, log: seq<Event>, tried: seq<Record>, runFaults: nat): History {
    History(s.w.sent, s.w.jobs, s.w.heard, s.w.disks, s.chain, log, tried, runFaults)
  }

  lemma PutGrows(cfg: Config, s: State, r: Record, n: nat, log: seq<Event>, tried: seq<Record>, runFaults: nat)
    ensures var h, h' := HistoryOf(s, log, tried, runFaults), HistoryOf(Put(cfg, s, r, n), log, tried, runFaults);
            Grew(h, h') && (!r.kind.AcceptanceVerdict? ==> GrewQuietly(h, h'))
  {
    hide CutDisks;
  }

  lemma GrewSame(h: History)
    ensures Grew(h, h)
  {
  }

  lemma QuietSame(h: History)
    ensures GrewQuietly(h, h)
  {
  }

  /** The news since `log` begin with `e`. */
  lemma NewsFrom(log: seq<Event>, e: Event, now: seq<Event>)
    requires log + [e] <= now
    ensures log <= now && now[|log|..] == [e] + now[|log| + 1..]
  {
  }

  lemma ChainPrefix(h: History, h': History)
    requires Grew(h, h')
    ensures h.chain <= h'.chain
  {
  }

  lemma TriedPrefix(h: History, h': History)
    requires Grew(h, h')
    ensures h.tried <= h'.tried
  {
  }

  lemma LogPrefix(h: History, h': History)
    requires Grew(h, h')
    ensures h.log <= h'.log
  {
  }

  lemma SentPrefix(h: History, h': History)
    requires Grew(h, h')
    ensures h.sent <= h'.sent
  {
  }

  lemma HeardPrefix(h: History, h': History)
    requires Grew(h, h')
    ensures h.heard <= h'.heard
  {
  }

  lemma DisksPrefix(h: History, h': History)
    requires Grew(h, h')
    ensures h.disks <= h'.disks
  {
  }

  lemma GrewTwice(a: History, b: History, c: History)
    requires Grew(a, b) && Grew(b, c)
    ensures Grew(a, c)
  {
  }

  lemma QuietTwice(a: History, b: History, c: History)
    requires GrewQuietly(a, b) && GrewQuietly(b, c)
    ensures GrewQuietly(a, c)
  {
    GrewTwice(a, b, c);
    hide Grew;
  }

  lemma ReportThenQuiet(a: History, b: History, c: History, report: Report)
    requires GrewByReport(a, b, report) && GrewQuietly(b, c)
    ensures GrewByReport(a, c, report)
  {
    GrewTwice(a, b, c);
    hide Grew;
  }

  lemma QuietThenReport(a: History, b: History, c: History, report: Report)
    requires GrewQuietly(a, b) && GrewByReport(b, c, report)
    ensures GrewByReport(a, c, report)
  {
    GrewTwice(a, b, c);
    hide Grew;
  }

  // ---- What a drained round leads to ----

  /** The failure is the one noted last. */
  predicate Repeats(cfg: Config, e: Event)
    requires e.Integrated?
  {
    e.last == Some(cfg.signature(e.result.outputTail))
  }

  /** The integration failed, rounds are left and the failure is a new one: the kernel is asked about another round. */
  predicate AsksKernel(cfg: Config, e: Event) {
    e.Integrated? && !e.result.Passed() && e.at < cfg.maxReplans && !Repeats(cfg, e)
  }

  /** The kernel has no answer about another round. */
  predicate NoAnswer(reply: FinalizeReply) {
    reply.FinalizeFailed? || reply.FinalizeError?
  }

  /** The kernel is asked once, about this failure. */
  predicate AsksAbout(ev: seq<Event>, round: nat, tail: string) {
    ev != [] && ev[0].FinalizeSaid? && ev[0].round == round && ev[0].tail == tail
  }

  /** The whole plan was authorized again, with this first wave. */
  predicate Reauthorized(ev: seq<Event>, wave: seq<TaskPlan>) {
    |ev| == 1 && ev[0].AuthorizeSaid? && ev[0].authorize.Authorized? && wave == ev[0].authorize.first
  }

  /** The kernel's answer leads to another round with `wave`: it re-opened it, or, without an answer, authorized the
      whole plan again. */
  predicate Resumes(ev: seq<Event>, wave: seq<TaskPlan>) {
    ev != [] && ev[0].FinalizeSaid? &&
    if ev[0].finalize.Replan? then |ev| == 1 && wave == ev[0].finalize.rewave
    else NoAnswer(ev[0].finalize) && Reauthorized(ev[1..], wave)
  }

  /** The tasks that round starts over. */
  function StartedOver(cfg: Config, ev: seq<Event>): seq<TaskId> {
    if ev != [] && ev[0].FinalizeSaid? && ev[0].finalize.Replan? then ev[0].finalize.reopened else cfg.tasks
  }

  /** The kernel's answer, or a failure to carry it out, ends the run for this reason. */
  predicate Declines(ev: seq<Event>, reason: string) {
    ev != [] && ev[0].FinalizeSaid? && DeclinesBy(ev[0].finalize, ev[1..], reason)
  }

  predicate DeclinesBy(reply: FinalizeReply, rest: seq<Event>, reason: string) {
    match reply
    case GiveUp(why) => rest == [] && reason == "re-plan declined: " + why
    case Converged => rest == [] && reason == "converged"
    case Replan(_, _) => ResetFails(rest, "re-plan reset failed: ", reason)
    case _ => Unauthorized(rest, reason)
  }

  /** An issue that was to be reset could not be read or written. */
  predicate ResetFails(ev: seq<Event>, phrase: string, reason: string) {
    |ev| == 1 && ev[0].Fault? && reason == phrase + ev[0].what
  }

  /** The plan was not authorized again, or was and could not be reset. */
  predicate Unauthorized(ev: seq<Event>, reason: string) {
    ev != [] && ev[0].AuthorizeSaid? &&
    match ev[0].authorize
    case Refused(why) =>
      |ev| == 1 &&
      reason == "re-plan failed: " + ("spawn detached task `<re-plan>`: " + ("kernel refused re-authorize: " + why))
    case AuthorizeError(why) => |ev| == 1 && reason == "re-plan failed: " + ("kernel advance: " + why)
    case Authorized(_, _) => ResetFails(ev[1..], "re-plan failed: ", reason)
  }

  /** What follows from the kernel's reply and what came back behind it. */
  lemma ReplyLeads(cfg: Config, log: seq<Event>, now: seq<Event>, round: nat, tail: string, reply: FinalizeReply)
    requires log + [FinalizeSaid(round, tail, reply)] <= now
    ensures var ev, rest := now[|log|..], now[|log| + 1..];
            AsksAbout(ev, round, tail) && ev[0].finalize == reply && ev[1..] == rest &&
            Decision(cfg, ev) == (if reply.Replan? then Some("rerun-targeted")
                                  else if NoAnswer(reply) then Some("rerun-all") else None) &&
            StartedOver(cfg, ev) == (if reply.Replan? then reply.reopened else cfg.tasks) &&
            (forall wave :: Resumes(ev, wave) <==>
               if reply.Replan? then rest == [] && wave == reply.rewave
               else NoAnswer(reply) && Reauthorized(rest, wave)) &&
            (forall reason :: Declines(ev, reason) <==> DeclinesBy(reply, rest, reason))
  {
    hide DeclinesBy, Reauthorized;
    NewsFrom(log, FinalizeSaid(round, tail, reply), now);
    assert now[|log|..][1..] == now[|log| + 1..];
  }

  /** Another round begins with `wave`. */
  predicate Reopens(cfg: Config, ev: seq<Event>, wave: seq<TaskPlan>) {
    ev != [] && AsksKernel(cfg, ev[0]) && AsksAbout(ev[1..], ev[0].at, ev[0].result.outputTail) &&
      Resumes(ev[1..], wave)
  }

  /** The run closes, for this reason. */
  predicate Closes(cfg: Config, ev: seq<Event>, reason: string) {
    if cfg.globalAccept.None? then ev == [] && reason == "completed"
    else if ev == [] || !ev[0].Integrated? then false
    else if ev[0].result.Passed() then |ev| == 1 && reason == "converged"
    else if ev[0].at >= cfg.maxReplans then
      |ev| == 1 && reason == IntegrationFailed(cfg.globalAccept.value, ev[0].result.exitCode, ev[0].at)
    else if Repeats(cfg, ev[0]) then |ev| == 1 && reason == "oscillating: integration failure unchanged"
    else AsksAbout(ev[1..], ev[0].at, ev[0].result.outputTail) && Declines(ev[1..], reason)
  }

  /** A round is judged by the request's command, at its round, against the failure noted last. */
  predicate JudgedAt(cfg: Config, ev: seq<Event>, round: nat, last: Option<string>) {
    cfg.globalAccept.Some? ==>
      ev != [] && ev[0].Integrated? && ev[0].command == cfg.globalAccept.value && ev[0].at == round &&
        ev[0].last == last
  }

  predicate IsGlobal(r: Record, round: nat, command: string, result: AcceptanceResult) {
    r.kind.GlobalVerdict? && r.round == Some(round) && r.acceptCommand == Some(command) &&
    r.exitCode == Some(result.exitCode) && r.passed == Some(result.exitCode == 0)
  }

  predicate IsDecision(r: Record, round: nat, decision: string) {
    r.kind.ReplanDecision? && r.round == Some(round) && r.decision == Some(decision)
  }

  /** What is decided about another round, if there is something to decide. */
  function Decision(cfg: Config, ev: seq<Event>): Option<string> {
    if ev == [] then None
    else if ev[0].Integrated? then
      if ev[0].result.Passed() || ev[0].at >= cfg.maxReplans then None
      else if Repeats(cfg, ev[0]) then Some("give-up: no progress")
      else Decision(cfg, ev[1..])
    else if !ev[0].FinalizeSaid? then None
    else if ev[0].finalize.Replan? then Some("rerun-targeted")
    else if NoAnswer(ev[0].finalize) then Some("rerun-all")
    else None
  }

  /** The decision is put on the chain, and nothing else. */
  predicate SealsDecision(recs: seq<Record>, round: nat, decision: Option<string>) {
    match decision
    case None => recs == []
    case Some(text) => |recs| == 1 && IsDecision(recs[0], round, text)
  }

  /** A judged round puts its integration verdict on the chain, and then the decision. */
  predicate SealsRound(cfg: Config, ev: seq<Event>, recs: seq<Record>) {
    if ev == [] then recs == []
    else
      recs != [] && ev[0].Integrated? && IsGlobal(recs[0], ev[0].at, ev[0].command, ev[0].result) &&
      SealsDecision(recs[1..], ev[0].at, Decision(cfg, ev))
  }

  // ---- How a run ends ----

  lemma NothingJudged(cfg: Config, h: History, round: nat, last: Option<string>)
    requires cfg.globalAccept.None?
    ensures var ev := h.log[|h.log|..];
            JudgedAt(cfg, ev, round, last) && Closes(cfg, ev, "completed") && SealsRound(cfg, ev, h.tried[|h.tried|..])
  {
  }

  /** A round judged on `e` and sealed as `rec` is all that happened between `h` and `h'`. */
  predicate JudgedOn(cfg: Config, h: History, h': History, e: Event, rec: Record) {
    e.Integrated? && cfg.globalAccept == Some(e.command) && IsGlobal(rec, e.at, e.command, e.result) &&
    h'.log == h.log + [e] && h'.tried == h.tried + [rec]
  }

  /** The integration passed, or no round is left. */
  lemma ClosedAtOnce(cfg: Config, h: History, h': History, e: Event, rec: Record, reason: string)
    requires JudgedOn(cfg, h, h', e, rec)
    requires if e.result.Passed() then reason == "converged"
             else e.at >= cfg.maxReplans && reason == IntegrationFailed(e.command, e.result.exitCode, e.at)
    ensures var ev := h'.log[|h.log|..];
            JudgedAt(cfg, ev, e.at, e.last) && Closes(cfg, ev, reason) && SealsRound(cfg, ev, h'.tried[|h.tried|..])
  {
    assert h'.log[|h.log|..] == [e] && h'.tried[|h.tried|..] == [rec];
  }

  /** The failure is the one noted last: that is sealed, and the run closes. */
  lemma ClosedAsRepeated(cfg: Config, h: History, h': History, now: History, e: Event, rec: Record, reason: string)
    requires JudgedOn(cfg, h, h', e, rec) && !e.result.Passed() && e.at < cfg.maxReplans && Repeats(cfg, e)
    requires now.log == h'.log && h'.tried <= now.tried && reason == "oscillating: integration failure unchanged"
    requires SealsDecision(now.tried[|h'.tried|..], e.at, Some("give-up: no progress"))
    ensures var ev := now.log[|h.log|..];
            JudgedAt(cfg, ev, e.at, e.last) && Closes(cfg, ev, reason) && SealsRound(cfg, ev, now.tried[|h.tried|..])
  {
    assert now.log[|h.log|..] == [e];
    SealedBehind(h, h', now, rec);
  }

  lemma SealedBehind(h: History, h': History, now: History, rec: Record)
    requires h'.tried == h.tried + [rec] <= now.tried
    ensures h.tried <= now.tried && now.tried[|h.tried|..] == [rec] + now.tried[|h'.tried|..]
  {
  }

  /** A new failure: the kernel was asked, and its answer decided. */
  lemma DecidedByKernel(cfg: Config, h: History, h': History, now: History, e: Event, rec: Record)
    requires JudgedOn(cfg, h, h', e, rec) && AsksKernel(cfg, e) && h'.log <= now.log && h'.tried <= now.tried
    requires var ev := now.log[|h'.log|..];
             AsksAbout(ev, e.at, e.result.outputTail) &&
             SealsDecision(now.tried[|h'.tried|..], e.at, Decision(cfg, ev))
    ensures var ev := now.log[|h.log|..];
            ev != [] && ev[0] == e && ev[1..] == now.log[|h'.log|..] && JudgedAt(cfg, ev, e.at, e.last) &&
            SealsRound(cfg, ev, now.tried[|h.tried|..]) &&
            (forall wave :: Resumes(ev[1..], wave) ==> Reopens(cfg, ev, wave)) &&
            (forall reason :: Declines(ev[1..], reason) ==> Closes(cfg, ev, reason))
  {
    hide Declines, Resumes, IsGlobal, SealsDecision;
    NewsFrom(h.log, e, now.log);
    SealedBehind(h, h', now, rec);
    var ev := now.log[|h.log|..];
    assert ev[1..] == now.log[|h'.log|..];
    assert Decision(cfg, ev) == Decision(cfg, ev[1..]);
  }

  /** A drained round and the closing of the run. */
  predicate ClosesRun(cfg: Config, ev: seq<Event>) {
    ev != [] && ev[|ev| - 1].Closing? && Closes(cfg, ev[..|ev| - 1], ev[|ev| - 1].reason)
  }

  /** The kernel's reply to a report of `t` ended the run: it said so, or the drained round closed. */
  predicate Stops(cfg: Config, t: TaskId, ev: seq<Event>) {
    |ev| >= 2 && ev[0].AdvanceSaid? && ev[|ev| - 1].Closing? &&
    var reason := ev[|ev| - 1].reason;
    match ev[0].advance
    case Paused(failed) => |ev| == 2 && reason == "paused: " + (if failed == [] then t else failed[0])
    case Aborted(failed) => |ev| == 2 && reason == "aborted: " + failed
    case Unfolded(why) => |ev| == 2 && reason == "kernel: " + why
    case Completed => Closes(cfg, ev[1..|ev| - 1], reason)
    case _ => false
  }

  /** An error, followed by the closing of the run with it. */
  predicate TornDown(ev: seq<Event>, where: string) {
    |ev| == 2 && IsError(ev[0]) && ev[1] == Closing(where + ErrorText(ev[0]))
  }

  ghost predicate Halts(cfg: Config, ev: seq<Event>) {
    (exists t :: Stops(cfg, t, ev)) || (exists where :: TornDown(ev, where)) || ev == [AbortSaid, Closing("cancelled")]
  }

  /** What was heard from position `from` on ends in a stop of the kernel's, an error or an abort. */
  ghost predicate Halted(cfg: Config, log: seq<Event>, from: nat) {
    exists k :: from <= k <= |log| && Halts(cfg, log[k..])
  }

  lemma HaltedSooner(cfg: Config, log: seq<Event>, from: nat, sooner: nat)
    requires Halted(cfg, log, from) && sooner <= from
    ensures Halted(cfg, log, sooner)
  {
  }

  lemma HaltedBy(cfg: Config, log: seq<Event>, k: nat)
    requires k <= |log| && Halts(cfg, log[k..])
    ensures forall from :: 0 <= from <= k ==> Halted(cfg, log, from)
  {
  }

  /** What the reply to a report of `t` and the events behind it lead to: more work, or an end. */
  predicate Ruled(cfg: Config, t: TaskId, ev: seq<Event>, wave: Option<seq<TaskPlan>>) {
    ev != [] && ev[0].AdvanceSaid? &&
    match wave
    case None => Stops(cfg, t, ev)
    case Some(w) =>
      if ev[0].advance.NextWave? then |ev| == 1 && w == ev[0].advance.wave
      else ev[0].advance.Completed? && Reopens(cfg, ev[1..], w)
  }

  lemma RuledStop(cfg: Config, t: TaskId, ev: seq<Event>)
    requires Stops(cfg, t, ev)
    ensures Ruled(cfg, t, ev, None)
  {
  }

  lemma RuledNext(cfg: Config, t: TaskId, log: seq<Event>, wave: seq<TaskPlan>)
    ensures Ruled(cfg, t, (log + [AdvanceSaid(NextWave(wave))])[|log|..], Some(wave))
  {
  }

  lemma RuledDrained(cfg: Config, t: TaskId, log: seq<Event>, now: seq<Event>, wave: seq<TaskPlan>)
    requires log + [AdvanceSaid(Completed)] <= now && Reopens(cfg, now[|log| + 1..], wave)
    ensures Ruled(cfg, t, now[|log|..], Some(wave))
  {
    hide Reopens;
    NewsFrom(log, AdvanceSaid(Completed), now);
    assert now[|log|..][1..] == now[|log| + 1..];
  }

  lemma ClosesRunBy(cfg: Config, log: seq<Event>, now: seq<Event>, reason: string)
    requires log <= now && Closes(cfg, now[|log|..], reason)
    ensures ClosesRun(cfg, (now + [Closing(reason)])[|log|..])
  {
    hide Closes;
    var ev := (now + [Closing(reason)])[|log|..];
    assert ev[..|ev| - 1] == now[|log|..];
  }

  lemma RuledClosed(cfg: Config, t: TaskId, log: seq<Event>, now: seq<Event>)
    requires log + [AdvanceSaid(Completed)] <= now && ClosesRun(cfg, now[|log| + 1..])
    ensures Ruled(cfg, t, now[|log|..], None)
  {
    hide Closes;
    NewsFrom(log, AdvanceSaid(Completed), now);
    var ev, news := now[|log|..], now[|log| + 1..];
    assert ev[1..|ev| - 1] == news[..|news| - 1];
  }

  /** The plans a continuing step was told of are those it goes on with. */
  lemma RuledWave(cfg: Config, t: TaskId, log: seq<Event>, ev: seq<Event>, w: seq<TaskPlan>)
    requires Ruled(cfg, t, ev, Some(w))
    ensures Waves(log + ev) == Waves(log) + w
  {
    WavesAppend(log, ev);
    WavesOfOne(ev[0]);
    if ev[0].advance.NextWave? {
      assert ev == [ev[0]];
    } else {
      assert ev == [ev[0]] + ev[1..];
      WavesAppend([ev[0]], ev[1..]);
      ReopenedWave(cfg, ev[1..], w);
      assert [] + w == w;
    }
  }

  lemma WavesOfOne(e: Event)
    ensures Waves([e]) == WaveIn(e)
  {
    WavesSnoc([], e);
    assert [] + [e] == [e];
  }

  lemma ReopenedWave(cfg: Config, ev: seq<Event>, w: seq<TaskPlan>)
    requires Reopens(cfg, ev, w)
    ensures Waves(ev) == w
  {
    hide Waves;
    WavesOfOne(ev[0]);
    WavesAppend([ev[0]], ev[1..]);
    ResumedWave(ev[1..], w);
    assert ev == [ev[0]] + ev[1..] && [] + w == w;
  }

  lemma ResumedWave(ev: seq<Event>, w: seq<TaskPlan>)
    requires Resumes(ev, w)
    ensures Waves(ev) == w
  {
    hide Waves;
    WavesOfOne(ev[0]);
    if |ev| == 1 {
      assert ev == [ev[0]];
    } else {
      WavesSnoc([ev[0]], ev[1]);
      assert ev == [ev[0]] + [ev[1]] && [] + w == w;
    }
  }

  // ---- What a message does to a run that goes on ----

  /** The first thing the kernel hears is this outcome. */
  predicate Tells(s: State, s': State, t: TaskId, outcome: TaskOutcome, attempt: nat) {
    |s.w.sent| < |s'.w.sent| && s.w.sent <= s'.w.sent &&
    s'.w.sent[|s.w.sent|] == Report(s.w.round, t, outcome, attempt)
  }

  /** A response of a routed job is heard; a finished task with an oracle is then judged, any other one reported. */
  ghost predicate AnsweredBy(cfg: Config, s: State, s': State, ev: FinalResponse) {
    if ev.jobId !in s.jobToTask then s' == s
    else
      var t := s.jobToTask[ev.jobId];
      s.w.heard + [Heard(ev.jobId, t, ev)] <= s'.w.heard && t in s.issues &&
      var attempt := s.issues[t].meta.attempt;
      if ev.path.None? then Tells(s, s', t, OutcomeFailed(ev.preview), attempt)
      else if t in cfg.accept then (t, attempt as nat) in s'.w.inflight && s'.w.sent == s.w.sent &&
        s'.w.jobs == s.w.jobs
      else Tells(s, s', t, OutcomeDone(ev.path.value), attempt)
  }

  /** The issue is stored again, without a response and with a self-repair prompt on top of its old one. */
  ghost predicate Reprompted(cfg: Config, before: Issue, after: Issue, command: string, tail: string, attempt: nat) {
    exists asked: Issue :: after == cfg.reread(asked) && asked.response.None? &&
      asked.meta.title == before.meta.title &&
      SelfRepair(asked.prompt, before.prompt, command, tail, attempt)
  }

  lemma RetryReprompts(cfg: Config, before: Issue, issue: Issue, job: JobId, command: string, tail: string)
    requires issue.meta.attempt + 1 < 0x1_0000_0000 && issue.prompt == before.prompt
    requires issue.meta.title == before.meta.title
    ensures var next := issue.meta.attempt + 1;
            Reprompted(cfg, before, cfg.reread(RetryIssue(issue, job, RetryBody(issue.prompt, command, tail, next))),
              command, tail, next)
  {
    RetryBodyReads(issue.prompt, command, tail, issue.meta.attempt + 1);
    hide SelfRepair, RetryBody;
  }

  /** A verdict of an oracle in flight: a pass and the last failure are reported, any other failure starts the next
      attempt and the kernel hears nothing. */
  ghost predicate JudgedBy(cfg: Config, s: State, s': State, t: TaskId, attempt: nat, result: AcceptanceResult) {
    if (t, attempt) !in s.w.inflight then s' == s
    else
      t in cfg.accept &&
      var spec := cfg.accept[t];
      if result.exitCode == 0 then Tells(s, s', t, OutcomeDone(t + ".md"), attempt)
      else if attempt + 1 < spec.maxAttempts then
        s'.w.sent == s.w.sent && |s'.w.jobs| == |s.w.jobs| + 1 && s.w.jobs <= s'.w.jobs &&
        var job := s'.w.jobs[|s.w.jobs|];
        job.task == t && job.attempt == attempt + 1 && s'.jobToTask == s.jobToTask[job.id := t] &&
        t in s.issues && t in s'.issues &&
        Reprompted(cfg, s.issues[t], s'.issues[t], spec.command, result.outputTail, attempt + 1)
      else Tells(s, s', t, OutcomeFailed(RejectReason(spec.command, attempt + 1, result.exitCode)), attempt)
  }
}
