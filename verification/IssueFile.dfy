/** The issue file: its printer, its parser, and what a written issue reads back as. */
module IssueFile {
  import opened Wrappers
  import opened Text

  const FM_DELIM := "+++"
  const PROMPT_MARKER := "<!-- orkia:prompt -->"
  const RESPONSE_MARKER := "<!-- orkia:response -->"

  datatype Status = Pending | Spawned | Done | Failed | Verifying | Verified | Rejected

  datatype IssueMeta = IssueMeta(
    id: string, title: string, agent: string, dependsOn: seq<string>, status: Status,
    jobId: Option<nat>, responseSha: Option<string>, seal: Option<string>, attempt: u32, verdictSeal: Option<string>)

  datatype Issue = Issue(meta: IssueMeta, prompt: string, response: Option<string>)

  /** The TOML encoder and decoder of the frontmatter. */
  datatype Codec = Codec(encode: IssueMeta -> string, decode: string -> Option<IssueMeta>)

  /** The encoder ends with a newline, its text has no line that starts with the delimiter, and the decoder inverts it.
      */
  ghost predicate Frontmatter(c: Codec, m: IssueMeta, fm: string) {
    c.encode(m) == fm + "\n" && c.decode(fm) == Some(m) && !Contains(fm, "\n" + FM_DELIM)
  }

  // ---- Printer ----

  function Head(title: string): string {
    "\n\n# " + title + "\n\n"
  }

  function Middle(prompt: string): string {
    "\n" + prompt + "\n\n"
  }

  function End(response: string): string {
    "\n" + response + "\n"
  }

  /** Everything behind the frontmatter. */
  function Body(title: string, prompt: string, response: string): string {
    Head(title) + (PROMPT_MARKER + (Middle(prompt) + (RESPONSE_MARKER + End(response))))
  }

  function Render(c: Codec, issue: Issue): string {
    FM_DELIM + "\n" + c.encode(issue.meta) + FM_DELIM + Body(issue.meta.title, issue.prompt, issue.response.GetOr(""))
  }

  /** The file, part by part. */
  lemma RenderReads(c: Codec, issue: Issue)
    ensures Render(c, issue) == Concat(["+++\n", c.encode(issue.meta), "+++\n\n# ", issue.meta.title,
      "\n\n<!-- orkia:prompt -->\n", issue.prompt, "\n\n<!-- orkia:response -->\n", issue.response.GetOr(""), "\n"])
  {
    var fm, title, prompt, response := c.encode(issue.meta), issue.meta.title, issue.prompt, issue.response.GetOr("");
    assert "+++" + "\n" == "+++\n" && "+++" + "\n\n# " == "+++\n\n# ";
    assert "\n\n" + (PROMPT_MARKER + "\n") == "\n\n<!-- orkia:prompt -->\n";
    assert "\n\n" + (RESPONSE_MARKER + "\n") == "\n\n<!-- orkia:response -->\n";
    NineParts("+++\n", fm, "+++\n\n# ", title, "\n\n<!-- orkia:prompt -->\n", prompt, "\n\n<!-- orkia:response -->\n",
      response, "\n");
    Laid(FM_DELIM, "\n", fm, "\n\n# ", title, "\n\n", PROMPT_MARKER, prompt, RESPONSE_MARKER, response);
  }

  lemma Laid(delim: string, n: string, fm: string, heading: string, title: string, gap: string, p: string,
    prompt: string, r: string, response: string)
    ensures delim + n + fm + delim +
      ((heading + title + gap) + (p + ((n + prompt + gap) + (r + (n + response + n))))) ==
      (delim + n) + (fm + ((delim + heading) +
        (title + ((gap + (p + n)) + (prompt + ((gap + (r + n)) + (response + n)))))))
  {
  }

  lemma NineParts(a: string, b: string, c: string, d: string, e: string, f: string, g: string, h: string, i: string)
    ensures Concat([a, b, c, d, e, f, g, h, i]) == a + (b + (c + (d + (e + (f + (g + (h + i)))))))
  {
    hide Concat;
    assert [a, b, c, d, e, f, g, h, i] == [a] + ([b] + ([c] + ([d] + ([e] + ([f] + ([g] + ([h] + [i])))))));
    ConcatCons(a, [b] + ([c] + ([d] + ([e] + ([f] + ([g] + ([h] + [i])))))));
    ConcatCons(b, [c] + ([d] + ([e] + ([f] + ([g] + ([h] + [i]))))));
    ConcatCons(c, [d] + ([e] + ([f] + ([g] + ([h] + [i])))));
    ConcatCons(d, [e] + ([f] + ([g] + ([h] + [i]))));
    ConcatCons(e, [f] + ([g] + ([h] + [i])));
    ConcatCons(f, [g] + ([h] + [i]));
    ConcatCons(g, [h] + [i]);
    ConcatCons(h, [i]);
    ConcatOne(i);
  }

  // ---- Parser ----

  /** Text after the first `start` marker, up to the first `end` marker if one is asked for. */
  function SectionText(body: string, start: string, end: Option<string>): Option<string> {
    match Find(body, start)
    case None => None
    case Some(at) =>
      var tail := body[at + |start|..];
      match end
      case None => Some(tail)
      case Some(e) =>
        match Find(tail, e)
        case None => Some(tail)
        case Some(k) => Some(tail[..k])
  }

  function Section(body: string, start: string, end: Option<string>): Option<string> {
    match SectionText(body, start, end)
    case None => None
    case Some(text) => Some(Trim(text))
  }

  function NonEmpty(s: Option<string>): Option<string> {
    if s == Some("") then None else s
  }

  function Parse(c: Codec, raw: string): Result<Issue> {
    if !(FM_DELIM + "\n" <= raw) then Err("missing opening +++")
    else
      var afterOpen := raw[|FM_DELIM| + 1..];
      match Find(afterOpen, "\n" + FM_DELIM)
      case None => Err("missing closing +++")
      case Some(close) =>
        var body := afterOpen[close + 1 + |FM_DELIM|..];
        match c.decode(afterOpen[..close])
        case None => Err("frontmatter")
        case Some(meta) =>
          match Section(body, PROMPT_MARKER, Some(RESPONSE_MARKER))
          case None => Err("missing prompt section")
          case Some(prompt) => Ok(Issue(meta, prompt, NonEmpty(Section(body, RESPONSE_MARKER, None))))
  }

  // ---- What a written issue reads back as ----

  /** The prompt and response a reader finds in a printed body. */
  function Reread(issue: Issue): (r: Issue)
    ensures r.meta == issue.meta
  {
    var body := Body(issue.meta.title, issue.prompt, issue.response.GetOr(""));
    Issue(issue.meta,
          Section(body, PROMPT_MARKER, Some(RESPONSE_MARKER)).GetOr(""),
          NonEmpty(Section(body, RESPONSE_MARKER, None)))
  }

  /** The intended meaning of a write: whitespace around the texts is lost and an empty response is no response. */
  function Normalized(issue: Issue): Issue {
    Issue(issue.meta, Trim(issue.prompt), NonEmpty(Some(Trim(issue.response.GetOr("")))))
  }

  /** The texts that keep the marker-delimited body readable. The response is unrestricted. */
  predicate MarkersFree(issue: Issue) {
    !Contains(issue.meta.title, PROMPT_MARKER) && !Contains(issue.meta.title, RESPONSE_MARKER) &&
    !Contains(issue.prompt, RESPONSE_MARKER)
  }

  // ---- Reading one body: head `a`, marker `p`, text `m`, marker `r`, text `t` ----

  lemma Regroup(a: string, p: string, m: string, rest: string)
    ensures a + (p + (m + rest)) == (a + (p + m)) + rest
  {
  }

  lemma DropTwo(a: string, p: string, rest: string)
    ensures (a + (p + rest))[|a| + |p|..] == rest
  {
  }

  lemma DropInside(a: string, k: nat, rest: string)
    requires k <= |a|
    ensures (a + rest)[k..] == a[k..] + rest
  {
  }

  lemma SectionUpTo(a: string, p: string, m: string, r: string, t: string)
    requires UniqueHead(p) && UniqueHead(r) && !Contains(a, p) && !Contains(m, r)
    ensures SectionText(a + (p + (m + (r + t))), p, Some(r)) == Some(m)
  {
    var tail := m + (r + t);
    FindAfter(a, p, tail);
    DropTwo(a, p, tail);
    FindAfter(m, r, t);
    assert tail[..|m|] == m;
  }

  lemma SectionToEnd(before: string, r: string, t: string)
    requires UniqueHead(r) && !Contains(before, r)
    ensures SectionText(before + (r + t), r, None) == Some(t)
  {
    FindAfter(before, r, t);
    DropTwo(before, r, t);
  }

  /** An earlier marker makes the section start too early. */
  lemma SectionTooEarly(before: string, r: string, t: string) returns (u: string)
    requires Contains(before, r)
    ensures SectionText(before + (r + t), r, None) == Some(u + (r + t))
  {
    FindWithin(before, r, r + t);
    var k := Find(before, r).value + |r|;
    u := before[k..];
    DropInside(before, k, r + t);
  }

  lemma TailLacks(a: string, k: nat, w: string, r: string)
    requires k <= |a| && !Contains(a + w, r)
    ensures !Contains(a[k..] + w, r)
  {
    hide Contains;
    PartLacks(a + w, k, |a + w|, r);
    DropInside(a, k, w);
    assert (a + w)[k..|a + w|] == (a + w)[k..];
  }

  lemma SectionFound(body: string, p: string, r: string, tail: string, cut: string)
    requires Find(body, p).Some? && Find(body, p).value + |p| <= |body| && body[Find(body, p).value + |p|..] == tail
    requires Find(tail, r) == Some(|cut|) && cut <= tail
    ensures SectionText(body, p, Some(r)) == Some(cut)
  {
    assert tail[..|cut|] == cut;
  }

  lemma Assoc(a: string, b: string, c: string)
    ensures a + (b + c) == (a + b) + c
  {
  }

  /** A start marker inside `a`, and no end marker before the one behind `w`. */
  lemma EarlyCut(a: string, p: string, w: string, r: string, t: string) returns (u: string)
    requires UniqueHead(r) && Contains(a, p) && !Contains(a + w, r)
    ensures SectionText(a + (w + (r + t)), p, Some(r)) == Some(u + w)
  {
    assert Find(a, p).value + |p| <= |a|;
    hide Occurs, UniqueHead, Find, Contains, SectionText;
    var k, x := Find(a, p).value + |p|, r + t;
    FindWithin(a, p, w + x);
    DropInside(a, k, w + x);
    TailLacks(a, k, w, r);
    u := a[k..];
    Assoc(u, w, x);
    FindAfter(u + w, r, t);
    SectionFound(a + (w + x), p, r, u + (w + x), u + w);
  }

  lemma PromptTooEarly(a: string, p: string, m: string, r: string, t: string) returns (u: string)
    requires UniqueHead(r) && Contains(a, p) && !Contains(a + (p + m), r)
    ensures SectionText(a + (p + (m + (r + t))), p, Some(r)) == Some(u + (p + m))
  {
    hide Occurs, UniqueHead, Find, Contains, SectionText;
    Assoc(p, m, r + t);
    u := EarlyCut(a, p, p + m, r, t);
  }

  /** The second marker does not arise from the first one or from where texts meet. */
  lemma MarkerOnlyInTexts(a: string, p: string, m: string, r: string, at: nat)
    requires r != "" && a != "" && a[|a| - 1] !in r
    requires at < |p| && at < |r| && p[at] != r[at] && forall i :: 0 < i < |p| ==> p[i] != r[0]
    ensures Contains(a + (p + m), r) == (Contains(a, r) || Contains(m, r))
  {
    var s := a + (p + m);
    if Contains(s, r) {
      var k := Find(s, r).value;
      MarkerPlace(a, p, m, r, at, k);
      if k < |a| { OccursContains(a, r, k); } else { OccursContains(m, r, k - |a| - |p|); }
    }
    if Contains(a, r) {
      FindWithin(a, r, p + m);
    }
    if Contains(m, r) {
      var k := Find(m, r).value;
      forall i | 0 <= i < |r| ensures s[|a| + |p| + k + i] == r[i] {
        assert m[k + i] == r[i];
      }
      OccursContains(s, r, |a| + |p| + k);
    }
  }

  lemma MarkerPlace(a: string, p: string, m: string, r: string, at: nat, k: nat)
    requires r != "" && a != "" && a[|a| - 1] !in r
    requires at < |p| && at < |r| && p[at] != r[at] && forall i :: 0 < i < |p| ==> p[i] != r[0]
    requires Occurs(a + (p + m), r, k)
    ensures (k < |a| && Occurs(a, r, k)) || (k >= |a| + |p| && Occurs(m, r, k - |a| - |p|))
  {
    var s := a + (p + m);
    assert s[k + 0] == r[0];
    assert s[k + at] == r[at];
    assert s[|a| + at] == p[at];
    assert forall i :: |a| <= i < |a| + |p| ==> s[i] == p[i - |a|];
    if k < |a| {
      assert s[|a| - 1] == a[|a| - 1];
      assert forall i :: k <= i < k + |r| ==> s[i] == r[i - k];
      assert k + |r| <= |a|;
      forall i | 0 <= i < |r| ensures a[k + i] == r[i] {
        assert s[k + i] == r[i];
      }
    } else {
      assert k >= |a| + |p|;
      forall i | 0 <= i < |r| ensures m[k - |a| - |p| + i] == r[i] {
        assert s[k + i] == r[i];
      }
    }
  }

  // ---- The two markers ----

  lemma Markers()
    ensures UniqueHead(PROMPT_MARKER) && UniqueHead(RESPONSE_MARKER) && UniqueHead("\n" + FM_DELIM)
    ensures |PROMPT_MARKER| == 21 && |RESPONSE_MARKER| == 23
    ensures PROMPT_MARKER[0] == RESPONSE_MARKER[0] == '<' && PROMPT_MARKER[20] == RESPONSE_MARKER[22] == '>'
    ensures PROMPT_MARKER[11] != RESPONSE_MARKER[11]
    ensures '\n' !in PROMPT_MARKER && '\n' !in RESPONSE_MARKER
    ensures forall i :: 0 < i < |PROMPT_MARKER| ==> PROMPT_MARKER[i] != '<'
  {
  }

  lemma FramesAddNoMarker(title: string, prompt: string, pat: string)
    requires pat == PROMPT_MARKER || pat == RESPONSE_MARKER
    ensures Contains(Head(title), pat) == Contains(title, pat)
    ensures Contains(Middle(prompt), pat) == Contains(prompt, pat)
  {
    Markers();
    FramedContains("\n\n# ", title, "\n\n", pat);
    FramedContains("\n", prompt, "\n\n", pat);
  }

  lemma FramesTrim(prompt: string, response: string)
    ensures Trim(Middle(prompt)) == Trim(prompt) && Trim(End(response)) == Trim(response)
  {
    TrimFramed("\n", prompt, "\n\n");
    TrimFramed("\n", response, "\n");
  }

  lemma ResponseMarkerBefore(title: string, prompt: string)
    ensures Contains(Head(title) + (PROMPT_MARKER + Middle(prompt)), RESPONSE_MARKER)
         == (Contains(title, RESPONSE_MARKER) || Contains(prompt, RESPONSE_MARKER))
  {
    Markers();
    FramesAddNoMarker(title, prompt, RESPONSE_MARKER);
    MarkerOnlyInTexts(Head(title), PROMPT_MARKER, Middle(prompt), RESPONSE_MARKER, 11);
  }

  /** The response is read back exactly when neither the title nor the prompt holds its marker. */
  lemma ResponseReadBack(title: string, prompt: string, response: string)
    ensures var got := Section(Body(title, prompt, response), RESPONSE_MARKER, None);
            got.Some? &&
            (NonEmpty(got) == NonEmpty(Some(Trim(response)))
             <==> !Contains(title, RESPONSE_MARKER) && !Contains(prompt, RESPONSE_MARKER))
  {
    Markers();
    var before := Head(title) + (PROMPT_MARKER + Middle(prompt));
    Regroup(Head(title), PROMPT_MARKER, Middle(prompt), RESPONSE_MARKER + End(response));
    ResponseMarkerBefore(title, prompt);
    FramesTrim(prompt, response);
    if Contains(before, RESPONSE_MARKER) {
      var u := SectionTooEarly(before, RESPONSE_MARKER, End(response));
      TrimLonger(u, RESPONSE_MARKER, End(response));
    } else {
      SectionToEnd(before, RESPONSE_MARKER, End(response));
    }
  }

  /** With no response marker in the way, the prompt is read back exactly when the title does not hold the prompt
      marker. */
  lemma PromptReadBack(title: string, prompt: string, response: string)
    requires !Contains(title, RESPONSE_MARKER) && !Contains(prompt, RESPONSE_MARKER)
    ensures Section(Body(title, prompt, response), PROMPT_MARKER, Some(RESPONSE_MARKER)) == Some(Trim(prompt))
       <==> !Contains(title, PROMPT_MARKER)
    ensures Contains(title, PROMPT_MARKER) ==>
              var got := Section(Body(title, prompt, response), PROMPT_MARKER, Some(RESPONSE_MARKER));
              got.Some? && |got.value| > |Trim(prompt)|
  {
    Markers();
    FramesAddNoMarker(title, prompt, PROMPT_MARKER);
    FramesAddNoMarker(title, prompt, RESPONSE_MARKER);
    ResponseMarkerBefore(title, prompt);
    FramesTrim(prompt, response);
    if Contains(title, PROMPT_MARKER) {
      var u := PromptTooEarly(Head(title), PROMPT_MARKER, Middle(prompt), RESPONSE_MARKER, End(response));
      TrimLonger(u, PROMPT_MARKER, Middle(prompt));
    } else {
      SectionUpTo(Head(title), PROMPT_MARKER, Middle(prompt), RESPONSE_MARKER, End(response));
    }
  }

  lemma PromptAlwaysFound(title: string, prompt: string, response: string)
    ensures Section(Body(title, prompt, response), PROMPT_MARKER, Some(RESPONSE_MARKER)).Some?
  {
    var rest := Middle(prompt) + (RESPONSE_MARKER + End(response));
    OccursContains(Head(title) + (PROMPT_MARKER + rest), PROMPT_MARKER, |Head(title)|);
  }

  /** A write keeps the meaning of an issue exactly when its title and prompt hold no marker that cuts the body: for
      every response. */
  lemma WriteMeansNormalizedIffMarkersFree(issue: Issue)
    ensures Reread(issue) == Normalized(issue) <==> MarkersFree(issue)
  {
    var title, prompt, response := issue.meta.title, issue.prompt, issue.response.GetOr("");
    ResponseReadBack(title, prompt, response);
    PromptAlwaysFound(title, prompt, response);
    if !Contains(title, RESPONSE_MARKER) && !Contains(prompt, RESPONSE_MARKER) {
      PromptReadBack(title, prompt, response);
    }
  }

  /** Parsing a printed issue gives its metadata exactly and its texts as `Reread` says, whatever the texts hold. */
  lemma ParseRendered(c: Codec, issue: Issue, fm: string)
    requires Frontmatter(c, issue.meta, fm)
    ensures Parse(c, Render(c, issue)) == Ok(Reread(issue))
  {
    var body := Body(issue.meta.title, issue.prompt, issue.response.GetOr(""));
    var delim := "\n" + FM_DELIM;
    var raw := Render(c, issue);
    PromptAlwaysFound(issue.meta.title, issue.prompt, issue.response.GetOr(""));
    RenderedShape(fm, body);
    assert raw == (FM_DELIM + "\n") + (fm + (delim + body));
    Markers();
    FindAfter(fm, delim, body);
    DropTwo(fm, delim, body);
    assert (fm + (delim + body))[..|fm|] == fm;
  }

  lemma RenderedShape(fm: string, body: string)
    ensures FM_DELIM + "\n" + (fm + "\n") + FM_DELIM + body == (FM_DELIM + "\n") + (fm + (("\n" + FM_DELIM) + body))
  {
  }

  predicate TitleFree(title: string) {
    !Contains(title, PROMPT_MARKER) && !Contains(title, RESPONSE_MARKER)
  }

  /** What is read back has trimmed texts, no response marker in its prompt and no blank response. */
  lemma RereadIsNormal(issue: Issue)
    ensures var again := Reread(issue);
            Normalized(again) == again && !Contains(again.prompt, RESPONSE_MARKER)
  {
    var title, prompt, response := issue.meta.title, issue.prompt, issue.response.GetOr("");
    var again, text := Reread(issue), SectionText(Body(title, prompt, response), RESPONSE_MARKER, None);
    PromptLosesMarker(title, prompt, response);
    hide Contains, Body, SectionText;
    if again.response.Some? {
      TrimTwice(text.value);
    } else {
      TrimBlank("");
    }
  }

  /** Reading and writing again changes nothing exactly when the title holds no marker. */
  lemma RereadTwice(issue: Issue)
    ensures Reread(Reread(issue)) == Reread(issue) <==> TitleFree(issue.meta.title)
  {
    hide Reread, Normalized, Contains;
    RereadIsNormal(issue);
    WriteMeansNormalizedIffMarkersFree(Reread(issue));
  }

  /** A marker in the title adds a response, or makes the prompt longer, each time an issue without a response is
      written. */
  lemma MarkedTitle(meta: IssueMeta, prompt: string)
    requires !TitleFree(meta.title) && !Contains(prompt, RESPONSE_MARKER) && Trim(prompt) == prompt
    ensures var got := Reread(Issue(meta, prompt, None));
            if Contains(meta.title, RESPONSE_MARKER) then got.response.Some? else |got.prompt| > |prompt|
  {
    hide Contains, Trim, Body, Section;
    TrimBlank("");
    ResponseReadBack(meta.title, prompt, "");
    if !Contains(meta.title, RESPONSE_MARKER) {
      PromptReadBack(meta.title, prompt, "");
    }
  }

  /** What a response is stored as. */
  function StoredText(response: Option<string>): Option<string> {
    if response.Some? && !Blank(response.value) then Some(Trim(response.value)) else None
  }

  lemma StoredTwice(response: Option<string>)
    ensures StoredText(StoredText(response)) == StoredText(response)
  {
    if response.Some? && !Blank(response.value) {
      var lo, hi := TrimCore(response.value);
      TrimTwice(response.value);
    }
  }

  /** Under a title without a marker and over a prompt without the response marker, every response is stored. */
  lemma RereadStores(issue: Issue)
    requires TitleFree(issue.meta.title) && !Contains(issue.prompt, RESPONSE_MARKER)
    ensures Reread(issue).response == StoredText(issue.response)
  {
    hide Reread, Contains;
    WriteMeansNormalizedIffMarkersFree(issue);
    var text := issue.response.GetOr("");
    if Blank(text) {
      TrimBlank(text);
    } else {
      var lo, hi := TrimCore(text);
    }
  }

  /** A step that reads an issue, changes its metadata or response and writes it back: the prompt stays, and exactly a
      response that is not blank is stored. */
  lemma RewriteKeepsPrompt(issue: Issue, meta: IssueMeta, response: Option<string>)
    requires TitleFree(meta.title) && meta.title == issue.meta.title
    ensures var again := Reread(Issue(meta, Reread(issue).prompt, response));
            again.meta == meta && again.prompt == Reread(issue).prompt &&
            again.response == StoredText(response)
  {
    PromptLosesMarker(issue.meta.title, issue.prompt, issue.response.GetOr(""));
    WriteMeansNormalizedIffMarkersFree(Issue(meta, Reread(issue).prompt, response));
    var text := response.GetOr("");
    if Blank(text) {
      TrimBlank(text);
    } else {
      var lo, hi := TrimCore(text);
    }
  }

  /** The prompt that is read back is trimmed and cut before any response marker, whatever was written. */
  lemma PromptLosesMarker(title: string, prompt: string, response: string)
    ensures var got := Section(Body(title, prompt, response), PROMPT_MARKER, Some(RESPONSE_MARKER));
            got.Some? && !Contains(got.value, RESPONSE_MARKER) && Trim(got.value) == got.value
  {
    Markers();
    hide Contains, Trim, Head, Middle, End;
    SectionCut(Head(title), PROMPT_MARKER, Middle(prompt), RESPONSE_MARKER, End(response));
  }

  /** Behind the first start marker there is still an end marker. */
  lemma TailHoldsEnd(a: string, p: string, m: string, r: string, t: string) returns (u: string)
    ensures var body := a + (p + (m + (r + t)));
            var at := Find(body, p);
            at.Some? && at.value <= |a| && body[at.value + |p|..] == u + (r + t)
  {
    var body := a + (p + (m + (r + t)));
    assert Occurs(body, p, |a|);
    var at := Find(body, p).value;
    u := body[at + |p|..|a| + |p| + |m|];
  }

  lemma FirstEnd(u: string, r: string, t: string)
    requires r != ""
    ensures var k := Find(u + (r + t), r); k.Some? && !Contains((u + (r + t))[..k.value], r)
  {
    assert Occurs(u + (r + t), r, |u|);
    OccursContains(u + (r + t), r, |u|);
    BeforeFirstLacks(u + (r + t), r);
  }

  /** Up to the first end marker: a trimmed text without it. */
  lemma SectionCut(a: string, p: string, m: string, r: string, t: string)
    requires r != ""
    ensures var got := Section(a + (p + (m + (r + t))), p, Some(r));
            got.Some? && !Contains(got.value, r) && Trim(got.value) == got.value
  {
    hide Contains, Trim, Find;
    var u := TailHoldsEnd(a, p, m, r, t);
    FirstEnd(u, r, t);
    var tail := u + (r + t);
    var cut := tail[..Find(tail, r).value];
    TrimLacks(cut, r);
    TrimTwice(cut);
  }

  lemma BeforeFirstLacks(s: string, pat: string)
    requires Contains(s, pat) && pat != ""
    ensures !Contains(s[..Find(s, pat).value], pat)
  {
    var k := Find(s, pat).value;
    forall i | 0 <= i <= k - |pat| ensures !Occurs(s[..k], pat, i) {
      assert !Occurs(s, pat, i);
      var j :| 0 <= j < |pat| && s[i + j] != pat[j];
      assert s[..k][i + j] == s[i + j];
    }
  }

  lemma TrimLacks(s: string, pat: string)
    requires !Contains(s, pat)
    ensures !Contains(Trim(s), pat)
  {
    var lo := SkipLeft(s, 0);
    PartLacks(s, lo, SkipRight(s, lo, |s|), pat);
  }
}
