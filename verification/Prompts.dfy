/** The prompts that started jobs are stored with: when the marker-delimited issue file keeps what was composed. */
module Prompts {
  import opened Wrappers
  import opened Text
  import opened IssueFile
  import opened Compose
  import opened World
  import opened DriverSpec

  // ---- Texts joined by fixed phrases ----

  /** No occurrence of `pat` can start in `sep`, end in it or run across it. */
  ghost predicate Parts(sep: string, pat: string) {
    pat != "" && pat[0] !in sep && pat[|pat| - 1] !in sep && exists i :: 0 <= i < |sep| && sep[i] !in pat
  }

  lemma OccursAt(s: string, pat: string, k: nat, q: nat)
    requires Occurs(s, pat, k) && k <= q < k + |pat|
    ensures s[q] in pat
  {
    assert s[k + (q - k)] == pat[q - k];
  }

  lemma JoinedPlace(a: string, sep: string, b: string, pat: string, k: nat)
    requires Parts(sep, pat) && Occurs(a + (sep + b), pat, k)
    ensures Occurs(a, pat, k) || (k >= |a| + |sep| && Occurs(b, pat, k - |a| - |sep|))
  {
    var s, n, m := a + (sep + b), |pat|, |a| + |sep|;
    var i :| 0 <= i < |sep| && sep[i] !in pat;
    assert forall j :: 0 <= j < |a| ==> s[j] == a[j];
    assert forall j :: |a| <= j < m ==> s[j] == sep[j - |a|];
    assert forall j :: m <= j < |s| ==> s[j] == b[j - m];
    assert s[k + 0] == pat[0] && s[k + (n - 1)] == pat[n - 1];
    if k < |a| {
      forall q | k <= q < k + n ensures s[q] in pat {
        OccursAt(s, pat, k, q);
      }
      assert s[|a| + i] == sep[i] && k + n <= |a| + i;
      assert k + n <= |a|;
      forall j | 0 <= j < n ensures a[k + j] == pat[j] {
        assert s[k + j] == pat[j];
      }
    } else {
      forall j | 0 <= j < n ensures b[k - m + j] == pat[j] {
        assert s[k + j] == pat[j];
      }
    }
  }

  /** Texts joined by such a phrase hold the pattern exactly when one of them does. */
  lemma JoinedContains(a: string, sep: string, b: string, pat: string)
    requires Parts(sep, pat)
    ensures Contains(a + (sep + b), pat) == (Contains(a, pat) || Contains(b, pat))
  {
    var s, m := a + (sep + b), |a| + |sep|;
    if Contains(s, pat) {
      var k := Find(s, pat).value;
      JoinedPlace(a, sep, b, pat, k);
      if Occurs(a, pat, k) {
        OccursContains(a, pat, k);
      } else {
        OccursContains(b, pat, k - m);
      }
    }
    if Contains(a, pat) {
      FindWithin(a, pat, sep + b);
    } else if Contains(b, pat) {
      var k := Find(b, pat).value;
      forall j | 0 <= j < |pat| ensures s[m + k + j] == pat[j] {
        assert b[k + j] == pat[j];
      }
      OccursContains(s, pat, m + k);
    }
  }

  lemma TrailContains(a: string, sep: string, pat: string)
    requires Parts(sep, pat)
    ensures Contains(a + sep, pat) == Contains(a, pat)
  {
    JoinedContains(a, sep, "", pat);
    assert sep + "" == sep;
  }

  /** Trimming the end does not remove a pattern that ends in a visible character. */
  lemma TrimEndContains(s: string, pat: string)
    requires pat != "" && !IsWhitespace(pat[|pat| - 1])
    ensures Contains(TrimEnd(s), pat) == Contains(s, pat)
  {
    var cut := SkipRight(s, 0, |s|);
    if Contains(s, pat) {
      var k := Find(s, pat).value;
      assert s[k + (|pat| - 1)] == pat[|pat| - 1];
      forall j | 0 <= j < |pat| ensures s[..cut][k + j] == pat[j] {
        assert s[k + j] == pat[j];
      }
      OccursContains(s[..cut], pat, k);
    } else {
      PartLacks(s, 0, cut, pat);
      assert s[0..cut] == s[..cut];
    }
  }

  lemma MarkerEnds()
    ensures RESPONSE_MARKER != "" && RESPONSE_MARKER[0] == '<' && RESPONSE_MARKER[|RESPONSE_MARKER| - 1] == '>'
    ensures '#' !in RESPONSE_MARKER && '(' !in RESPONSE_MARKER && '`' !in RESPONSE_MARKER && '\n' !in RESPONSE_MARKER
  {
  }

  lemma PhrasesPart()
    ensures Parts(CONTEXT_OF, RESPONSE_MARKER) && Parts(DEPENDENCY, RESPONSE_MARKER) && Parts(ANSWERS, RESPONSE_MARKER)
    ensures Parts(GAP, RESPONSE_MARKER) && Parts(RULE, RESPONSE_MARKER)
  {
    MarkerEnds();
    hide RESPONSE_MARKER;
    assert CONTEXT_OF[0] == '#' && DEPENDENCY[1] == '(' && ANSWERS[0] == '`' && GAP[0] == '\n' && RULE[3] == '\n';
  }

  // ---- Composed prompts ----

  predicate Marked(s: string) {
    Contains(s, RESPONSE_MARKER)
  }

  predicate MarkedDep(dep: DepContext) {
    Marked(dep.agent) || Marked(dep.taskId) || Marked(dep.response)
  }

  /** A dependency's block behind any text. */
  lemma BlockMarked(before: string, dep: DepContext)
    ensures Marked(before + Block(dep)) == (Marked(before) || MarkedDep(dep))
  {
    PhrasesPart();
    MarkerEnds();
    hide Contains, TrimEnd, Parts, CONTEXT_OF, DEPENDENCY, ANSWERS, GAP, RESPONSE_MARKER;
    var answer := TrimEnd(dep.response);
    TrimEndContains(dep.response, RESPONSE_MARKER);
    TrailContains(answer, GAP, RESPONSE_MARKER);
    var x := dep.taskId + (ANSWERS + (answer + GAP));
    JoinedContains(dep.taskId, ANSWERS, answer + GAP, RESPONSE_MARKER);
    JoinedContains(dep.agent, DEPENDENCY, x, RESPONSE_MARKER);
    JoinedContains(before, CONTEXT_OF, dep.agent + (DEPENDENCY + x), RESPONSE_MARKER);
  }

  lemma {:induction false} BlocksMarked(deps: seq<DepContext>)
    ensures Marked(Blocks(deps)) <==> exists i :: 0 <= i < |deps| && MarkedDep(deps[i])
  {
    hide Marked, MarkedDep, Block;
    if deps == [] {
      NothingMarked();
    } else {
      var n := |deps| - 1;
      BlocksMarked(deps[..n]);
      BlockMarked(Blocks(deps[..n]), deps[n]);
    }
  }

  lemma NothingMarked()
    ensures !Marked("")
  {
    MarkerEnds();
  }

  /** A composed prompt holds the response marker exactly when the body or something of a dependency does. */
  lemma ComposedMarked(body: string, deps: seq<DepContext>)
    ensures Marked(Composed(body, deps)) <==> Marked(body) || exists i :: 0 <= i < |deps| && MarkedDep(deps[i])
  {
    PhrasesPart();
    hide Contains, Parts, RULE, RESPONSE_MARKER, MarkedDep, Block;
    BlocksMarked(deps);
    JoinedContains(Blocks(deps), RULE, body, RESPONSE_MARKER);
    assert Blocks(deps) + RULE + body == Blocks(deps) + (RULE + body);
  }

  /** A started task is stored with the composed prompt, trimmed, and no response, exactly when its title holds no
      marker and neither its body nor any dependency's agent, id or response holds the response marker. */
  lemma StartedPromptStoredIffUnmarked(plan: TaskPlan, job: JobId, deps: seq<DepContext>)
    ensures var prompt := Composed(plan.body, deps);
            Reread(SpawnedIssue(plan, job, prompt)) == SpawnedIssue(plan, job, Trim(prompt))
            <==> TitleFree(plan.title) && !Marked(plan.body) && forall i :: 0 <= i < |deps| ==> !MarkedDep(deps[i])
  {
    hide Reread, Contains, Trim, Composed, MarkedDep;
    WriteMeansNormalizedIffMarkersFree(SpawnedIssue(plan, job, Composed(plan.body, deps)));
    TrimBlank("");
    ComposedMarked(plan.body, deps);
  }

  /** Otherwise a marked dependency leaves a prompt without the marker, so cut before it, and a response that nobody
      gave. */
  lemma MarkedResponseSpoilsDependent(plan: TaskPlan, job: JobId, deps: seq<DepContext>, i: nat)
    requires i < |deps| && MarkedDep(deps[i])
    ensures var stored := Reread(SpawnedIssue(plan, job, Composed(plan.body, deps)));
            stored.response.Some? && !Marked(stored.prompt)
  {
    hide Contains, Trim, Composed, MarkedDep, Body, Section;
    var prompt := Composed(plan.body, deps);
    ComposedMarked(plan.body, deps);
    ResponseReadBack(plan.title, prompt, "");
    PromptLosesMarker(plan.title, prompt, "");
    TrimBlank("");
  }

  // ---- Retry prompts ----

  lemma LeadPlain()
    ensures '<' !in ATTEMPT && '>' !in ATTEMPT && '<' !in CHECKED && '>' !in CHECKED && ATTEMPT != "" &&
      ATTEMPT[0] == '\n'
  {
  }

  lemma LeadParts(attempt: nat)
    ensures Parts(ATTEMPT + Decimal(attempt) + CHECKED, RESPONSE_MARKER)
  {
    MarkerEnds();
    DecimalMeans(attempt);
    LeadPlain();
    hide RESPONSE_MARKER, Decimal, ATTEMPT, CHECKED;
    var digits := Decimal(attempt);
    assert '<' !in digits && '>' !in digits;
    assert (ATTEMPT + digits + CHECKED)[0] == '\n';
  }

  lemma OutputParts()
    ensures Parts(OUTPUT, RESPONSE_MARKER)
  {
    MarkerEnds();
    hide RESPONSE_MARKER;
    assert OUTPUT[0] == '`';
  }

  lemma FixParts()
    ensures Parts(FIX, RESPONSE_MARKER)
  {
    MarkerEnds();
    hide RESPONSE_MARKER;
    assert FIX[0] == '\n';
  }

  lemma StopParts()
    ensures Parts(STOP, RESPONSE_MARKER)
  {
    MarkerEnds();
    hide RESPONSE_MARKER;
    assert STOP[0] == '`';
  }

  lemma RetryMarked(prompt: string, command: string, tail: string, attempt: nat)
    ensures Marked(RetryBody(prompt, command, tail, attempt)) == (Marked(prompt) || Marked(command) || Marked(tail))
  {
    OutputParts();
    FixParts();
    StopParts();
    LeadParts(attempt);
    hide Contains, Parts, ATTEMPT, CHECKED, OUTPUT, FIX, STOP, RESPONSE_MARKER, Decimal;
    var lead, x := ATTEMPT + Decimal(attempt) + CHECKED, tail + (FIX + (command + STOP));
    TrailContains(command, STOP, RESPONSE_MARKER);
    JoinedContains(tail, FIX, command + STOP, RESPONSE_MARKER);
    JoinedContains(command, OUTPUT, x, RESPONSE_MARKER);
    JoinedContains(prompt, lead, command + (OUTPUT + x), RESPONSE_MARKER);
  }

  /** A retried task is stored with the self-repair prompt, trimmed, exactly when its title holds no marker and neither
      the prompt, the oracle's command nor its output holds the response marker. */
  lemma RetryPromptStoredIffUnmarked(issue: Issue, job: JobId, command: string, tail: string)
    requires issue.meta.attempt + 1 < 0x1_0000_0000
    ensures var body := RetryBody(issue.prompt, command, tail, issue.meta.attempt + 1);
            Reread(RetryIssue(issue, job, body)) == RetryIssue(issue, job, Trim(body))
            <==> TitleFree(issue.meta.title) && !Marked(issue.prompt) && !Marked(command) && !Marked(tail)
  {
    hide Reread, Contains, Trim, RetryBody;
    var body := RetryBody(issue.prompt, command, tail, issue.meta.attempt + 1);
    WriteMeansNormalizedIffMarkersFree(RetryIssue(issue, job, body));
    TrimBlank("");
    RetryMarked(issue.prompt, command, tail, issue.meta.attempt + 1);
  }
}
