/** Writing a profile out line by line, and what a reader of the text then grants. */
module SbplProfile {
  import opened Wrappers
  import opened SbplText
  import opened Sbpl

  // ---- The lines ----

  function ShowEach(fs: seq<Form>): seq<string> {
    seq(|fs|, i requires 0 <= i < |fs| => Show(fs[i]))
  }

  function IndentEach(cs: seq<Clause>): seq<string> {
    seq(|cs|, i requires 0 <= i < |cs| => "  " + ShowClause(cs[i]))
  }

  /** A form laid out with one clause per line. */
  function Spread(f: Form): seq<string> {
    ["(" + ShowWords(f.words)] + IndentEach(f.clauses) + ["  )"]
  }

  const COMMENT_START := "; orkia-cage SBPL \U{2014} tag "

  function Comment(tag: string): string {
    COMMENT_START + tag
  }

  function PreambleLines(tag: string): seq<string> {
    ShowEach(HeadForms(tag)) + [Comment(tag)] + ShowEach(BASICS) + Spread(MachLookup(MACH_NAMES)) +
      ShowEach(DeviceSection())
  }

  function Lines(spec: ProfileSpec): seq<string> {
    PreambleLines(spec.logTag) + ShowEach(ReadSection(spec)) + ShowEach(WriteSection(spec) + DenySection(spec))
  }

  /** `lines.join("\n")`. */
  function Join(lines: seq<string>): string {
    if lines == [] then "" else if |lines| == 1 then lines[0] else lines[0] + ("\n" + Join(lines[1..]))
  }

  lemma ShowAppend(a: seq<Form>, b: seq<Form>)
    ensures ShowEach(a + b) == ShowEach(a) + ShowEach(b)
  {
    hide Show;
  }

  lemma ShowNone()
    ensures ShowEach([]) == []
  {
  }

  // ---- Writing them ----

  /** One rule line per element of a fixed list. */
  method EmitForms(p: seq<string>, fs: seq<Form>) returns (q: seq<string>)
    ensures q == p + ShowEach(fs)
  {
    hide Show;
    q := p;
    for i := 0 to |fs|
      invariant q == p + ShowEach(fs[..i])
    {
      ShowAppend(fs[..i], [fs[i]]);
      assert fs[..i + 1] == fs[..i] + [fs[i]];
      q := q + [Show(fs[i])];
    }
    assert fs[..|fs|] == fs;
  }

  /** The rule lines of each path of a list. */
  method EmitEach(p: seq<string>, paths: seq<string>, f: string -> seq<Form>) returns (q: seq<string>)
    ensures q == p + ShowEach(Each(paths, f))
  {
    hide Show;
    q := p;
    for i := 0 to |paths|
      invariant q == p + ShowEach(Each(paths[..i], f))
    {
      ShowAppend(Each(paths[..i], f), f(paths[i]));
      assert paths[..i + 1][..i] == paths[..i];
      q := q + ShowEach(f(paths[i]));
    }
    assert paths[..|paths|] == paths;
  }

  method EmitMachLookup(p: seq<string>, names: seq<string>) returns (q: seq<string>)
    ensures q == p + Spread(MachLookup(names))
  {
    hide ShowClause, GlobalName;
    q := p + ["(" + ShowWords(MachLookup(names).words)];
    ghost var start, clauses := q, GlobalNames(names);
    for i := 0 to |names|
      invariant q == start + IndentEach(clauses[..i])
    {
      assert IndentEach(clauses[..i + 1]) == IndentEach(clauses[..i]) + ["  " + ShowClause(clauses[i])];
      q := q + ["  " + ShowClause(GlobalName(names[i]))];
    }
    assert clauses[..|names|] == clauses;
    q := q + ["  )"];
  }

  method EmitPreamble(p: seq<string>, tag: string) returns (q: seq<string>)
    ensures q == p + PreambleLines(tag)
  {
    hide ShowEach, Spread, HeadForms, Comment, MachLookup, Each, DeviceForms;
    q := EmitForms(p, HeadForms(tag));
    q := q + [Comment(tag)];
    q := EmitForms(q, BASICS);
    q := EmitMachLookup(q, MACH_NAMES);
    q := EmitEach(q, DEVICES, DeviceForms);
    q := EmitForms(q, TERMINALS);
    ShowAppend(Each(DEVICES, DeviceForms), TERMINALS);
  }

  method EmitReadRules(p: seq<string>, spec: ProfileSpec) returns (q: seq<string>)
    ensures q == p + ShowEach(ReadSection(spec))
  {
    hide ShowEach, Each, ReadGrant;
    var xcode, own := [Allow("file-read*", [Literally(XCODE_LINK)])], WorkspaceReads(spec) + spec.readOnly;
    q := EmitForms(p, READ_FIXES);
    q := EmitEach(q, RUNTIME_READ_ROOTS, ReadGrant);
    q := EmitForms(q, xcode);
    q := EmitEach(q, own, ReadGrant);
    ShowAppend(READ_FIXES, Each(RUNTIME_READ_ROOTS, ReadGrant));
    ShowAppend(READ_FIXES + Each(RUNTIME_READ_ROOTS, ReadGrant), xcode);
    ShowAppend(FixedReads(), Each(own, ReadGrant));
  }

  method EmitWriteRules(p: seq<string>, spec: ProfileSpec) returns (q: seq<string>)
    ensures q == p + ShowEach(WriteSection(spec) + DenySection(spec))
  {
    hide ShowEach, Each, ReadWriteGrant, DenyWriteForms, DenyExecForms, WriteUnder;
    q := p;
    if spec.workspaceRead && spec.workspaceWrite {
      q := EmitForms(q, [WriteUnder(spec.workspace)]);
    }
    ShowNone();
    assert q == p + ShowEach(WorkspaceWrites(spec));
    hide WorkspaceWrites;
    q := EmitEach(q, spec.readWrite, ReadWriteGrant);
    ShowAppend(WorkspaceWrites(spec), Each(spec.readWrite, ReadWriteGrant));
    assert q == p + ShowEach(WriteSection(spec));
    hide WriteSection;
    q := EmitEach(q, spec.denyWrite, DenyWriteForms(spec.logTag));
    q := EmitEach(q, spec.denyExec, DenyExecForms(spec.logTag));
    ShowAppend(Each(spec.denyWrite, DenyWriteForms(spec.logTag)), Each(spec.denyExec, DenyExecForms(spec.logTag)));
    ShowAppend(WriteSection(spec), DenySection(spec));
  }

  // ---- Reading the text ----

  /** The words of the rules hold no dot and no backslash; service names and paths are never words. */
  predicate KeyChar(c: char) {
    'a' <= c <= 'z' || 'A' <= c <= 'Z' || '0' <= c <= '9' || c == '-' || c == '*'
  }

  predicate IsKeyword(w: string) {
    w != "" && forall i :: 0 <= i < |w| ==> KeyChar(w[i])
  }

  lemma KeywordIsWord(w: string)
    requires IsKeyword(w)
    ensures IsWord(w) && Inert(w) && '.' !in w
  {
  }

  ghost predicate AllKeywords(ws: seq<string>) {
    ws != [] && forall i :: 0 <= i < |ws| ==> IsKeyword(ws[i])
  }

  ghost predicate KeyForm(f: Form) {
    AllKeywords(f.words) && forall i :: 0 <= i < |f.clauses| ==> AllKeywords(f.clauses[i].words)
  }

  ghost predicate AllFormsOk(fs: seq<Form>) {
    forall i :: 0 <= i < |fs| ==> KeyForm(fs[i])
  }

  lemma KeyFormOk(f: Form)
    requires KeyForm(f)
    ensures FormOk(f)
  {
    hide IsWord, IsKeyword;
    forall w | IsKeyword(w) ensures IsWord(w) {
      KeywordIsWord(w);
    }
  }

  /** Every line with the newline in front of it. */
  ghost function Tail(lines: seq<string>): string {
    if lines == [] then "" else "\n" + (lines[0] + Tail(lines[1..]))
  }

  lemma TailStep(lines: seq<string>)
    ensures Tail(lines) == if lines == [] then "" else "\n" + (lines[0] + Tail(lines[1..]))
  {
  }

  lemma Regrouped(n: string, a: string, x: string, y: string)
    ensures n + (a + (x + y)) == (n + (a + x)) + y
  {
  }

  lemma {:induction false} TailAppend(a: seq<string>, b: seq<string>)
    ensures Tail(a + b) == Tail(a) + Tail(b)
  {
    hide Tail;
    TailStep(a);
    if a == [] {
      assert a + b == b;
    } else {
      TailStep(a + b);
      TailAppend(a[1..], b);
      assert (a + b)[1..] == a[1..] + b;
      Regrouped("\n", a[0], Tail(a[1..]), Tail(b));
    }
  }

  lemma {:induction false} JoinTail(lines: seq<string>)
    requires lines != []
    ensures "\n" + Join(lines) == Tail(lines)
  {
    if |lines| == 1 {
      assert Tail(lines[1..]) == "";
    } else {
      JoinTail(lines[1..]);
    }
  }

  lemma NewLine(rest: string)
    ensures Lex("\n" + rest) == Lex(rest) && EndsWord("\n" + rest)
  {
    LexOne('\n', rest);
  }

  lemma {:induction false} LexForms(fs: seq<Form>, rest: string)
    requires AllFormsOk(fs)
    ensures Lex(Tail(ShowEach(fs)) + rest) == FormsTokens(fs) + Lex(rest)
  {
    hide Lex, Show, KeyForm, FormOk, FormTokens, EndsWord;
    if fs == [] {
      assert Tail(ShowEach(fs)) + rest == rest;
    } else {
      var more := Tail(ShowEach(fs[1..])) + rest;
      assert ShowEach(fs)[1..] == ShowEach(fs[1..]);
      assert Tail(ShowEach(fs)) + rest == "\n" + (Show(fs[0]) + more);
      NewLine(Show(fs[0]) + more);
      KeyFormOk(fs[0]);
      LexForm(fs[0], more);
      LexForms(fs[1..], rest);
    }
  }

  lemma {:induction false} LexIndented(cs: seq<Clause>, rest: string)
    requires forall i :: 0 <= i < |cs| ==> ClauseOk(cs[i])
    requires EndsWord(rest)
    ensures Lex(Tail(IndentEach(cs)) + rest) == ClausesTokens(cs) + Lex(rest)
    ensures EndsWord(Tail(IndentEach(cs)) + rest)
  {
    hide Lex, ShowClause, ClauseOk, ClauseTokens, EndsWord;
    if cs == [] {
      assert Tail(IndentEach(cs)) + rest == rest;
    } else {
      var more := Tail(IndentEach(cs[1..])) + rest;
      var shown := ShowClause(cs[0]) + more;
      assert IndentEach(cs)[1..] == IndentEach(cs[1..]);
      assert Tail(IndentEach(cs)) + rest == "\n" + ([' '] + ([' '] + shown));
      NewLine([' '] + ([' '] + shown));
      LexOne(' ', [' '] + shown);
      LexOne(' ', shown);
      LexClause(cs[0], more);
      LexIndented(cs[1..], rest);
    }
  }

  lemma LexSpread(f: Form, rest: string)
    requires FormOk(f)
    ensures Lex(Tail(Spread(f)) + rest) == FormTokens(f) + Lex(rest)
  {
    hide Lex, ShowWords, IndentEach, EndsWord, WordTokens, ClausesTokens, AllWords, ClauseOk;
    var first, last := ["(" + ShowWords(f.words)], ["  )"];
    var end := "\n" + ([' '] + ([' '] + ([')'] + rest)));
    var clauses := Tail(IndentEach(f.clauses)) + end;
    TailAppend(first, IndentEach(f.clauses));
    TailAppend(first + IndentEach(f.clauses), last);
    assert Tail(first[1..]) == "" && Tail(last[1..]) == "";
    assert Tail(Spread(f)) + rest == "\n" + (['('] + (ShowWords(f.words) + clauses));
    NewLine(['('] + (ShowWords(f.words) + clauses));
    LexOne('(', ShowWords(f.words) + clauses);
    NewLine([' '] + ([' '] + ([')'] + rest)));
    LexIndented(f.clauses, end);
    LexWords(f.words, clauses);
    LexOne(' ', [' '] + ([')'] + rest));
    LexOne(' ', [')'] + rest);
    LexOne(')', rest);
  }

  predicate OneLine(s: string) {
    forall i :: 0 <= i < |s| ==> s[i] != '\n'
  }

  /** A comment ends with the first line of its text. */
  lemma {:induction false} SkipOneLine(s: string, rest: string)
    requires OneLine(s)
    ensures SkipLine(s + rest) == SkipLine(rest)
  {
    if s == "" {
      assert s + rest == rest;
    } else {
      assert (s + rest)[1..] == s[1..] + rest;
      SkipOneLine(s[1..], rest);
    }
  }

  lemma LexNoteLine(start: string, tag: string, rest: string)
    requires start != "" && start[0] == ';' && OneLine(start[1..]) && rest != "" && rest[0] == '\n'
    ensures Lex(Tail([start + tag]) + rest) == Lex(SkipLine(tag) + rest)
  {
    hide Lex, Tail;
    var line, more := start + tag, start[1..];
    TailStep([line]);
    TailStep([line][1..]);
    assert Tail([line]) == "\n" + line;
    assert "\n" + line + rest == "\n" + ([';'] + (more + (tag + rest)));
    NewLine([';'] + (more + (tag + rest)));
    LexNote(more + (tag + rest));
    SkipOneLine(more, tag + rest);
    SkipLineThen(tag, rest);
  }

  lemma LexComment(tag: string, rest: string)
    requires rest != "" && rest[0] == '\n'
    ensures Lex(Tail([Comment(tag)]) + rest) == Lex(SkipLine(tag) + rest)
  {
    hide Lex, Tail, SkipLine;
    LexNoteLine(COMMENT_START, tag, rest);
  }

  // ---- Every rule is made of words ----

  lemma ActionWords()
    ensures IsKeyword("allow") && IsKeyword("deny") && IsKeyword("version") && IsKeyword("1") && IsKeyword("default")
  {
  }

  lemma ClauseWords()
    ensures IsKeyword("literal") && IsKeyword("subpath") && IsKeyword("regex") && IsKeyword("vnode-type")
  {
  }

  lemma MoreClauseWords()
    ensures IsKeyword("target") && IsKeyword("global-name") && IsKeyword("with") && IsKeyword("message")
  {
  }

  lemma ArgumentWords()
    ensures IsKeyword("same-sandbox") && IsKeyword("DIRECTORY") && IsKeyword("SYMLINK")
  {
  }

  lemma FileWords()
    ensures IsKeyword("file-read*") && IsKeyword("file-read-metadata") && IsKeyword("file-write*")
  {
  }

  lemma MoreFileWords()
    ensures IsKeyword("file-write-data") && IsKeyword("file-ioctl")
  {
  }

  lemma ProcessWords()
    ensures IsKeyword("process-fork") && IsKeyword("process-exec") && IsKeyword("process-exec*") &&
      IsKeyword("process-info*")
  {
  }

  lemma IpcWords()
    ensures IsKeyword("ipc-posix-shm") && IsKeyword("ipc-posix-sem") && IsKeyword("mach-lookup")
  {
  }

  lemma SystemWords()
    ensures IsKeyword("signal") && IsKeyword("mach-priv-task-port") && IsKeyword("sysctl-read")
  {
  }

  lemma MoreSystemWords()
    ensures IsKeyword("user-preference-read") && IsKeyword("network*") && IsKeyword("system-socket")
  {
  }

  /** Every word of the rules is a keyword. */
  lemma Keywords()
    ensures IsKeyword("allow") && IsKeyword("deny") && IsKeyword("version") && IsKeyword("1") && IsKeyword("default")
    ensures IsKeyword("literal") && IsKeyword("subpath") && IsKeyword("regex") && IsKeyword("vnode-type")
    ensures IsKeyword("target") && IsKeyword("global-name") && IsKeyword("with") && IsKeyword("message")
    ensures IsKeyword("same-sandbox") && IsKeyword("DIRECTORY") && IsKeyword("SYMLINK")
    ensures IsKeyword("file-read*") && IsKeyword("file-read-metadata") && IsKeyword("file-write*")
    ensures IsKeyword("file-write-data") && IsKeyword("file-ioctl")
    ensures IsKeyword("process-fork") && IsKeyword("process-exec") && IsKeyword("process-exec*") &&
      IsKeyword("process-info*")
    ensures IsKeyword("ipc-posix-shm") && IsKeyword("ipc-posix-sem") && IsKeyword("mach-lookup")
    ensures IsKeyword("signal") && IsKeyword("mach-priv-task-port") && IsKeyword("sysctl-read")
    ensures IsKeyword("user-preference-read") && IsKeyword("network*") && IsKeyword("system-socket")
  {
    hide IsKeyword;
    ActionWords();
    ClauseWords();
    MoreClauseWords();
    ArgumentWords();
    FileWords();
    MoreFileWords();
    ProcessWords();
    IpcWords();
    SystemWords();
    MoreSystemWords();
  }

  lemma FormsOkAppend(a: seq<Form>, b: seq<Form>)
    ensures AllFormsOk(a + b) == (AllFormsOk(a) && AllFormsOk(b))
  {
    hide KeyForm;
    assert forall i :: 0 <= i < |a| ==> (a + b)[i] == a[i];
    assert forall i :: 0 <= i < |b| ==> (a + b)[|a| + i] == b[i];
  }

  lemma {:induction false} EachOk(paths: seq<string>, f: string -> seq<Form>)
    requires forall path :: AllFormsOk(f(path))
    ensures AllFormsOk(Each(paths, f))
  {
    hide AllFormsOk;
    if paths == [] {
      NoFormsOk();
    } else {
      var n := |paths| - 1;
      EachOk(paths[..n], f);
      FormsOkAppend(Each(paths[..n], f), f(paths[n]));
    }
  }

  lemma NoFormsOk()
    ensures AllFormsOk([])
  {
  }

  lemma PathFormsOk(path: string, tag: string)
    ensures AllFormsOk(DeviceForms(path)) && AllFormsOk(ReadGrant(path)) && AllFormsOk(ReadWriteGrant(path))
    ensures AllFormsOk(DenyWriteForms(tag)(path)) && AllFormsOk(DenyExecForms(tag)(path))
  {
    Keywords();
    hide IsKeyword;
  }

  lemma FixedFormsOk(tag: string)
    ensures AllFormsOk(HeadForms(tag)) && AllFormsOk(BASICS)
  {
    Keywords();
    hide IsKeyword;
  }

  lemma FileFormsOk()
    ensures AllFormsOk(TERMINALS) && AllFormsOk(READ_FIXES) &&
      AllFormsOk([Allow("file-read*", [Literally(XCODE_LINK)])])
  {
    Keywords();
    hide IsKeyword;
  }

  lemma MachOk(names: seq<string>)
    ensures KeyForm(MachLookup(names))
  {
    Keywords();
    hide IsKeyword;
  }

  lemma SectionsOk(spec: ProfileSpec)
    ensures AllFormsOk(DeviceSection()) && AllFormsOk(ReadSection(spec)) &&
      AllFormsOk(WriteSection(spec) + DenySection(spec))
  {
    hide AllFormsOk, Each;
    forall path ensures AllFormsOk(DeviceForms(path)) && AllFormsOk(ReadGrant(path)) &&
      AllFormsOk(ReadWriteGrant(path)) {
      PathFormsOk(path, "");
    }
    EachOk(DEVICES, DeviceForms);
    EachOk(RUNTIME_READ_ROOTS, ReadGrant);
    EachOk(WorkspaceReads(spec) + spec.readOnly, ReadGrant);
    EachOk(spec.readWrite, ReadWriteGrant);
    FileFormsOk();
    FormsOkAppend(Each(DEVICES, DeviceForms), TERMINALS);
    FormsOkAppend(READ_FIXES, Each(RUNTIME_READ_ROOTS, ReadGrant));
    FormsOkAppend(READ_FIXES + Each(RUNTIME_READ_ROOTS, ReadGrant), [Allow("file-read*", [Literally(XCODE_LINK)])]);
    FormsOkAppend(FixedReads(), Each(WorkspaceReads(spec) + spec.readOnly, ReadGrant));
    WritesOk(spec);
  }

  lemma WritesOk(spec: ProfileSpec)
    ensures AllFormsOk(WriteSection(spec) + DenySection(spec))
  {
    hide AllFormsOk, Each;
    var w, x := DenyWriteForms(spec.logTag), DenyExecForms(spec.logTag);
    forall path ensures AllFormsOk(ReadWriteGrant(path)) && AllFormsOk(w(path)) && AllFormsOk(x(path)) {
      PathFormsOk(path, spec.logTag);
    }
    assert AllFormsOk(WorkspaceWrites(spec)) by {
      NoFormsOk();
      PathFormsOk(spec.workspace, "");
      FormsOkAppend([ReadUnder(spec.workspace)], [WriteUnder(spec.workspace)]);
      assert ReadWriteGrant(spec.workspace) == [ReadUnder(spec.workspace)] + [WriteUnder(spec.workspace)];
    }
    EachOk(spec.readWrite, ReadWriteGrant);
    EachOk(spec.denyWrite, w);
    EachOk(spec.denyExec, x);
    FormsOkAppend(WorkspaceWrites(spec), Each(spec.readWrite, ReadWriteGrant));
    FormsOkAppend(Each(spec.denyWrite, w), Each(spec.denyExec, x));
    FormsOkAppend(WriteSection(spec), DenySection(spec));
  }

  // ---- The whole text ----

  lemma {:induction false} FormsTokensAppend(a: seq<Form>, b: seq<Form>)
    ensures FormsTokens(a + b) == FormsTokens(a) + FormsTokens(b)
  {
    hide FormTokens;
    if a == [] {
      assert a + b == b;
    } else {
      FormsTokensAppend(a[1..], b);
      assert (a + b)[1..] == a[1..] + b;
    }
  }

  /** What follows the comment line. */
  ghost function Rest(spec: ProfileSpec): string {
    Tail(ShowEach(BASICS)) + (Tail(Spread(MachLookup(MACH_NAMES))) +
      (Tail(ShowEach(DeviceSection())) + (Tail(ShowEach(ReadSection(spec))) +
        (Tail(ShowEach(WriteSection(spec) + DenySection(spec))) + ""))))
  }

  lemma TextSplits(spec: ProfileSpec)
    ensures "\n" + Join(Lines(spec)) == Tail(ShowEach(HeadForms(spec.logTag))) +
      (Tail([Comment(spec.logTag)]) + Rest(spec))
  {
    hide Tail, ShowEach, Spread, Comment, HeadForms, DeviceSection, ReadSection, WriteSection, DenySection, MachLookup;
    var h, c, b := ShowEach(HeadForms(spec.logTag)), [Comment(spec.logTag)], ShowEach(BASICS);
    var m, d := Spread(MachLookup(MACH_NAMES)), ShowEach(DeviceSection());
    var r, w := ShowEach(ReadSection(spec)), ShowEach(WriteSection(spec) + DenySection(spec));
    JoinTail(Lines(spec));
    TailAppend(h, c);
    TailAppend(h + c, b);
    TailAppend(h + c + b, m);
    TailAppend(h + c + b + m, d);
    TailAppend(h + c + b + m + d, r);
    TailAppend(h + c + b + m + d + r, w);
  }

  lemma RestHead(spec: ProfileSpec)
    ensures Rest(spec) != "" && Rest(spec)[0] == '\n'
  {
    var b := ShowEach(BASICS);
    assert |b| > 0;
    hide ShowEach, BASICS, Tail;
    TailStep(b);
  }

  lemma OneFormTokens(f: Form)
    ensures FormsTokens([f]) == FormTokens(f)
  {
    hide FormTokens;
    assert FormsTokens([f][1..]) == [];
  }

  lemma LexRest(spec: ProfileSpec)
    ensures Lex(Rest(spec)) == FormsTokens(AllowSection(spec) + DenySection(spec))
  {
    hide Lex, Tail, FormsTokens, FormTokens, ShowEach, Spread, DeviceSection, ReadSection, WriteSection, DenySection,
      MachLookup;
    SectionsOk(spec);
    FixedFormsOk("");
    MachOk(MACH_NAMES);
    var d, r, w := DeviceSection(), ReadSection(spec), WriteSection(spec) + DenySection(spec);
    var mach := MachLookup(MACH_NAMES);
    var tw := Tail(ShowEach(w)) + "";
    var tr := Tail(ShowEach(r)) + tw;
    var td := Tail(ShowEach(d)) + tr;
    var tm := Tail(Spread(mach)) + td;
    LexNothing();
    LexForms(w, "");
    LexForms(r, tw);
    LexForms(d, tr);
    KeyFormOk(mach);
    LexSpread(mach, td);
    LexForms(BASICS, tm);
    OneFormTokens(mach);
    FormsTokensAppend(r, w);
    FormsTokensAppend(d, r + w);
    FormsTokensAppend([mach], d + (r + w));
    FormsTokensAppend(BASICS, [mach] + (d + (r + w)));
    assert AllowSection(spec) + DenySection(spec) == BASICS + ([mach] + (d + (r + w)));
  }

  /** The text holds the tokens of the profile, with those of the tag's later lines behind the head. */
  lemma TextTokens(spec: ProfileSpec)
    ensures Lex(Join(Lines(spec))) == FormsTokens(HeadForms(spec.logTag)) + Lex(SkipLine(spec.logTag) + Rest(spec))
  {
    hide Lex, Tail, FormsTokens, ShowEach, Lines, Comment, HeadForms, Rest;
    var head := HeadForms(spec.logTag);
    TextSplits(spec);
    NewLine(Join(Lines(spec)));
    FixedFormsOk(spec.logTag);
    RestHead(spec);
    LexForms(head, Tail([Comment(spec.logTag)]) + Rest(spec));
    LexComment(spec.logTag, Rest(spec));
  }

  lemma ProfileTokens(spec: ProfileSpec)
    ensures FormsTokens(Profile(spec)) == FormsTokens(HeadForms(spec.logTag)) + Lex(Rest(spec))
  {
    hide Lex, FormsTokens, HeadForms, AllowSection, DenySection, Rest;
    LexRest(spec);
    FormsTokensAppend(HeadForms(spec.logTag), AllowSection(spec) + DenySection(spec));
    assert Profile(spec) == HeadForms(spec.logTag) + (AllowSection(spec) + DenySection(spec));
  }

  // ---- Where a profile's first quote stands ----

  lemma InertAppend(a: string, b: string)
    requires Inert(a) && Inert(b)
    ensures Inert(a + b)
  {
  }

  lemma {:induction false} InertWords(ws: seq<string>)
    requires ws == [] || AllKeywords(ws)
    ensures Inert(ShowWords(ws))
  {
    if ws != [] {
      KeywordIsWord(ws[0]);
      if |ws| > 1 {
        InertWords(ws[1..]);
        InertAppend(" ", ShowWords(ws[1..]));
        InertAppend(ws[0], " " + ShowWords(ws[1..]));
      }
    }
  }

  ghost predicate BareClauses(cs: seq<Clause>) {
    forall i :: 0 <= i < |cs| ==> cs[i].arg.NoArg? && AllKeywords(cs[i].words)
  }

  lemma {:induction false} InertClauses(cs: seq<Clause>)
    requires BareClauses(cs)
    ensures Inert(ShowClauses(cs))
  {
    hide IsKeyword;
    if cs != [] {
      var c, more := cs[0], ShowClauses(cs[1..]);
      InertClauses(cs[1..]);
      InertWords(c.words);
      assert ShowClause(c) == "(" + (ShowWords(c.words) + ")");
      InertAppend(ShowWords(c.words), ")");
      InertAppend("(", ShowWords(c.words) + ")");
      InertAppend(ShowClause(c), more);
      InertAppend(" ", ShowClause(c) + more);
    }
  }

  lemma InertForm(f: Form)
    requires KeyForm(f) && BareClauses(f.clauses)
    ensures Inert(Show(f))
  {
    hide IsKeyword, ShowWords, ShowClauses;
    InertWords(f.words);
    InertClauses(f.clauses);
    InertAppend(ShowClauses(f.clauses), ")");
    InertAppend(ShowWords(f.words), ShowClauses(f.clauses) + ")");
    InertAppend("(", ShowWords(f.words) + (ShowClauses(f.clauses) + ")"));
  }

  lemma {:induction false} InertTail(lines: seq<string>)
    requires forall i :: 0 <= i < |lines| ==> Inert(lines[i])
    ensures Inert(Tail(lines))
  {
    if lines != [] {
      InertTail(lines[1..]);
      InertAppend(lines[0], Tail(lines[1..]));
      InertAppend("\n", lines[0] + Tail(lines[1..]));
    }
  }

  lemma InertBasics()
    ensures Inert(Tail(ShowEach(BASICS)))
  {
    FixedFormsOk("");
    assert forall i :: 0 <= i < |BASICS| ==> BareClauses(BASICS[i].clauses) by {
      Keywords();
      hide IsKeyword;
    }
    hide Show, KeyForm, BareClauses, BASICS;
    forall i | 0 <= i < |ShowEach(BASICS)| ensures Inert(ShowEach(BASICS)[i]) {
      InertForm(BASICS[i]);
    }
    InertTail(ShowEach(BASICS));
  }

  /** A form laid out line by line, cut at the first literal. */
  lemma SpreadSplits(f: Form) returns (more: string)
    requires f.clauses != [] && f.clauses[0].arg.Quoted?
    ensures var c := f.clauses[0];
            Tail(Spread(f)) == ("\n(" + (ShowWords(f.words) + ("\n  (" + (ShowWords(c.words) + " ")))) +
              ("\"" + (Escaped(c.arg.text) + ("\"" + more)))
  {
    hide ShowWords, Escaped, Tail;
    var c, first, clauses, last := f.clauses[0], ["(" + ShowWords(f.words)], IndentEach(f.clauses), ["  )"];
    TailAppend(first, clauses);
    TailAppend(first + clauses, last);
    TailStep(first);
    TailStep(first[1..]);
    TailStep(clauses);
    var rest := Tail(clauses[1..]);
    more := ")" + (rest + Tail(last));
    assert clauses[0] == "  " + ShowClause(c);
    hide Spread, IndentEach;
    SpreadRegroup(ShowWords(f.words), ShowWords(c.words), Escaped(c.arg.text), rest, Tail(last));
  }

  lemma SpreadRegroup(w: string, v: string, e: string, rest: string, last: string)
    ensures ("\n" + (("(" + w) + "")) + ("\n" + (("  " + ("(" + (v + ((" " + ("\"" + (e + "\""))) + ")")))) + rest)) +
      last
         == ("\n(" + (w + ("\n  (" + (v + " ")))) + ("\"" + (e + ("\"" + (")" + (rest + last)))))
  {
    LeftPart(w, v, e + "\"");
  }

  lemma LeftPart(w: string, v: string, x: string)
    ensures ("\n" + (("(" + w) + "")) + ("\n" + ("  " + ("(" + (v + (" " + ("\"" + x))))))
         == ("\n(" + (w + ("\n  (" + (v + " ")))) + ("\"" + x)
  {
  }

  lemma {:induction false} EscapedInert(s: string)
    requires Inert(s)
    ensures Escaped(s) == s
  {
    if s != "" {
      EscapedInert(s[1..]);
      assert s == [s[0]] + s[1..];
    }
  }

  lemma FirstName()
    ensures IsWord(MACH_NAMES[0]) && Inert(MACH_NAMES[0]) && '.' in MACH_NAMES[0]
  {
    assert MACH_NAMES[0][3] == '.';
  }

  /** The profile behind the comment, cut at its first quote: what follows starts with a service name. */
  lemma RestSplits(spec: ProfileSpec) returns (p: string, q: string)
    ensures Opens(Rest(spec), p, q)
    ensures Lex(q) != [] && Lex(q)[0] == Word(MACH_NAMES[0])
  {
    hide Lex, Tail, ShowEach, Escaped, ShowWords;
    var f, name := MachLookup(MACH_NAMES), MACH_NAMES[0];
    hide MACH_NAMES, Spread;
    InertBasics();
    MachOk(MACH_NAMES);
    var more := SpreadSplits(f);
    var c, x := f.clauses[0], Tail(ShowEach(BASICS));
    var y := "\n(" + (ShowWords(f.words) + ("\n  (" + (ShowWords(c.words) + " ")));
    InertWords(f.words);
    InertWords(c.words);
    InertAppend(ShowWords(c.words), " ");
    InertAppend("\n  (", ShowWords(c.words) + " ");
    InertAppend(ShowWords(f.words), "\n  (" + (ShowWords(c.words) + " "));
    InertAppend("\n(", ShowWords(f.words) + ("\n  (" + (ShowWords(c.words) + " ")));
    InertAppend(x, y);
    var z := Tail(ShowEach(DeviceSection())) + (Tail(ShowEach(ReadSection(spec))) +
      (Tail(ShowEach(WriteSection(spec) + DenySection(spec))) + ""));
    p, q := x + y, name + ("\"" + (more + z));
    FirstName();
    EscapedInert(name);
    LexWord(name, "\"" + (more + z));
    RestRegroup(x, y, name, more, z);
    RestHead(spec);
  }

  lemma RestRegroup(x: string, y: string, name: string, more: string, z: string)
    ensures x + ((y + ("\"" + (name + ("\"" + more)))) + z) == (x + y) + ("\"" + (name + ("\"" + (more + z))))
  {
  }

  // ---- No rule has a service name for a word ----

  ghost predicate WordsAreKeys(ts: seq<Token>) {
    forall i :: 0 <= i < |ts| && ts[i].Word? ==> IsKeyword(ts[i].name)
  }

  lemma {:induction false} KeyWordTokens(ws: seq<string>)
    requires ws == [] || AllKeywords(ws)
    ensures WordsAreKeys(WordTokens(ws))
  {
    hide IsKeyword;
    if ws != [] {
      KeyWordTokens(ws[1..]);
    }
  }

  lemma {:induction false} KeyClausesTokens(cs: seq<Clause>)
    requires forall i :: 0 <= i < |cs| ==> AllKeywords(cs[i].words)
    ensures WordsAreKeys(ClausesTokens(cs))
  {
    hide IsKeyword, AllKeywords, WordTokens;
    if cs != [] {
      KeyWordTokens(cs[0].words);
      KeyClausesTokens(cs[1..]);
    }
  }

  lemma {:induction false} KeyFormsTokens(fs: seq<Form>)
    requires AllFormsOk(fs)
    ensures WordsAreKeys(FormsTokens(fs))
  {
    hide IsKeyword, AllKeywords, WordTokens, ClausesTokens;
    if fs != [] {
      KeyWordTokens(fs[0].words);
      KeyClausesTokens(fs[0].clauses);
      KeyFormsTokens(fs[1..]);
    }
  }

  lemma RestHasKeysOnly(spec: ProfileSpec)
    ensures WordsAreKeys(Lex(Rest(spec)))
  {
    hide Lex, Rest, FormsTokens, AllFormsOk, DeviceSection, ReadSection, WriteSection, DenySection, MachLookup,
      WordsAreKeys;
    LexRest(spec);
    SectionsOk(spec);
    FixedFormsOk("");
    MachOk(MACH_NAMES);
    OneFormOk(MachLookup(MACH_NAMES));
    var d, r, w, m := DeviceSection(), ReadSection(spec), WriteSection(spec) + DenySection(spec),
      [MachLookup(MACH_NAMES)];
    FormsOkAppend(r, w);
    FormsOkAppend(d, r + w);
    FormsOkAppend(m, d + (r + w));
    FormsOkAppend(BASICS, m + (d + (r + w)));
    assert AllowSection(spec) + DenySection(spec) == BASICS + (m + (d + (r + w)));
    KeyFormsTokens(AllowSection(spec) + DenySection(spec));
  }

  lemma OneFormOk(f: Form)
    requires KeyForm(f)
    ensures AllFormsOk([f])
  {
  }

  // ---- Which tags leave the profile alone ----

  /** The tag's later lines hold no token: they are blank or comments. */
  predicate Silent(tag: string) {
    Lex(SkipLine(tag)) == []
  }

  /** Tokens `t` with others in front, or with a stretch of them replaced by one that brings in the word `w`, are not
      `t`. */
  lemma TokensDiffer(t: seq<Token>, added: seq<Token>, head: seq<Token>, tail: seq<Token>)
    ensures added + t == t <==> added == []
    ensures tail != [] && tail[0].Word? && !IsKeyword(tail[0].name) && WordsAreKeys(t) ==> head + tail != t
  {
    hide IsKeyword;
    assert |added + t| == |added| + |t|;
    assert tail != [] ==> (head + tail)[|head|] == tail[0];
  }

  /** For every tag: the text reads back as the rules exactly when the tag's later lines hold no token. */
  lemma ReadsBackIffTagIsSilent(spec: ProfileSpec)
    ensures ReadForms(Lex(Join(Lines(spec)))) == Some(Profile(spec)) <==> Silent(spec.logTag)
  {
    hide Lex, ReadForms, FormsTokens, Lines, HeadForms, Profile, Rest, WordsAreKeys, Inert;
    TextTokens(spec);
    ProfileTokens(spec);
    ReadFormsExact(Lex(Join(Lines(spec))), Profile(spec));
    var p, q := RestSplits(spec);
    RestHasKeysOnly(spec);
    FirstName();
    var later, t, keep := SkipLine(spec.logTag), Lex(Rest(spec)), FormsTokens(HeadForms(spec.logTag));
    var open, head := LexOn(later, Rest(spec), p, q);
    TokensDiffer(t, Lex(later), head, Lex(q));
    SameFront(keep, Lex(later + Rest(spec)), t);
  }

  lemma SameFront(a: seq<Token>, b: seq<Token>, c: seq<Token>)
    ensures a + b == a + c <==> b == c
  {
    assert (a + b)[|a|..] == b && (a + c)[|a|..] == c;
  }

  /** A reader of the text `text` grants the access `a`. */
  ghost predicate TextPermits(text: string, a: Access) {
    var r := ReadForms(Lex(text));
    r.Some? && Permits(r.value, a)
  }

  /** With such a tag the text means the spec's access function. */
  lemma TextMeansGranted(spec: ProfileSpec, a: Access)
    requires Silent(spec.logTag)
    ensures TextPermits(Join(Lines(spec)), a) == Granted(spec, a)
  {
    hide Lex, ReadForms, Permits, Granted, Lines, Profile;
    ReadsBackIffTagIsSilent(spec);
    ProfileMeansGranted(spec, a);
  }

  // ---- What other tags do ----

  /** A form on the tag's second line is read as a rule between the head and the rest. */
  lemma TagFormIsRule(spec: ProfileSpec, line: string, f: Form)
    requires OneLine(line) && FormOk(f) && spec.logTag == line + ("\n" + Show(f))
    ensures ReadForms(Lex(Join(Lines(spec)))) ==
      Some(HeadForms(spec.logTag) + ([f] + (AllowSection(spec) + DenySection(spec))))
  {
    hide Lex, ReadForms, FormsTokens, FormTokens, Lines, HeadForms, AllowSection, DenySection, Rest, Show, FormOk;
    var head, rules := HeadForms(spec.logTag), AllowSection(spec) + DenySection(spec);
    SkipOneLine(line, "\n" + Show(f));
    assert SkipLine("\n" + Show(f)) == "\n" + Show(f);
    TextTokens(spec);
    assert "\n" + Show(f) + Rest(spec) == "\n" + (Show(f) + Rest(spec));
    NewLine(Show(f) + Rest(spec));
    LexForm(f, Rest(spec));
    LexRest(spec);
    OneFormTokens(f);
    FormsTokensAppend([f], rules);
    FormsTokensAppend(head, [f] + rules);
    ReadFormsBack(head + ([f] + rules));
  }

  lemma AllowAll(a: Access)
    ensures Matches(Allow("default", []), a) && IsAllow(Allow("default", [])) && FormOk(Allow("default", []))
  {
    FileCovers(a.op);
    Keywords();
    hide Covers, IsKeyword;
    assert Allow("default", []).words[1] == "default";
    assert IsWord("allow") && IsWord("default");
  }

  /** A tag whose second line is `(allow default)`: every access that no denial names is permitted, whatever the spec
      grants. */
  lemma DefaultTagPermits(spec: ProfileSpec, line: string, a: Access)
    requires OneLine(line) && spec.logTag == line + ("\n" + Show(Allow("default", [])))
    ensures TextPermits(Join(Lines(spec)), a) <==>
      !(IsWrite(a.op) && UnderAny(spec.denyWrite, a.path)) &&
        !(StartsWith(a.op, "process-exec") && a.path in spec.denyExec)
  {
    var f := Allow("default", []);
    AllowAll(a);
    hide Lex, ReadForms, Permits, AnyMatch, Matches, IsAllow, Lines, AllowSection, DenySection, Under, Allow, Show,
      FormOk;
    TagFormIsRule(spec, line, f);
    AllowSectionAllows(spec);
    DenySectionMatch(spec, a);
    DenySectionDenies(spec);
    var head, block := HeadForms(spec.logTag), [f] + AllowSection(spec);
    AnyMatchOne(f, a);
    AnyMatchAppend([f], AllowSection(spec), a);
    PermitsBlock(head, block, true, a);
    PermitsBlock(head + block, DenySection(spec), false, a);
    assert head + ([f] + (AllowSection(spec) + DenySection(spec))) == (head + block) + DenySection(spec);
  }

  /** So there is a spec that grants nothing outside the fixed roots and a text for it that permits writing everywhere.
      */
  lemma TagCanUndoProfile()
    ensures var spec := ProfileSpec("x\n(allow default)", "/w", false, false, [], [], [], []);
            var a := Access("file-write-create", "/p", RegularFile, false, "");
            !Granted(spec, a) && TextPermits(Join(Lines(spec)), a)
  {
    hide TextPermits, Join, Lines, Show;
    var spec := ProfileSpec("x\n(allow default)", "/w", false, false, [], [], [], []);
    var a := Access("file-write-create", "/p", RegularFile, false, "");
    ShownDefault();
    DefaultTagPermits(spec, "x", a);
    CreateIsWrite();
    OperationsApart(a.op);
  }

  lemma CreateIsWrite()
    ensures IsWrite("file-write-create") && "file-write-create" != "file-write-data"
  {
    assert "file-write-create"[11] == 'c' && "file-write-data"[11] == 'd';
  }

  lemma ShownDefault()
    ensures "x" + ("\n" + Show(Allow("default", []))) == "x\n(allow default)"
  {
    assert ShowWords(["allow", "default"][1..]) == "default";
    assert Show(Allow("default", [])) == "(allow default)";
  }

  /** Every denial is tagged: its message is the log tag. */
  lemma DenialsAreTagged(spec: ProfileSpec, i: nat)
    requires i < |Profile(spec)| && IsDeny(Profile(spec)[i])
    ensures Clause(["with", "message"], Quoted(spec.logTag)) in Profile(spec)[i].clauses
  {
    var head, allow, deny := HeadForms(spec.logTag), AllowSection(spec), DenySection(spec);
    AllowSectionAllows(spec);
    assert "deny"[0] == 'd' && "allow"[0] == 'a' && "version"[0] == 'v';
    EachTagged(spec.denyWrite, DenyWriteForms(spec.logTag), spec.logTag);
    EachTagged(spec.denyExec, DenyExecForms(spec.logTag), spec.logTag);
    hide AllowSection, DenyWriteForms, DenyExecForms, Each;
    assert forall k :: |head| <= k < |head| + |allow| ==> Profile(spec)[k] == allow[k - |head|];
    assert i < |head| || i >= |head| + |allow|;
    if i < |head| {
      assert head[1].clauses[0] == Message(spec.logTag);
    } else {
      assert Profile(spec)[i] == deny[i - |head| - |allow|];
    }
  }

  predicate Tagged(f: Form, tag: string) {
    Clause(["with", "message"], Quoted(tag)) in f.clauses
  }

  lemma {:induction false} EachTagged(paths: seq<string>, f: string -> seq<Form>, tag: string)
    requires forall path, k :: 0 <= k < |f(path)| ==> Tagged(f(path)[k], tag)
    ensures forall k :: 0 <= k < |Each(paths, f)| ==> Tagged(Each(paths, f)[k], tag)
  {
    hide Tagged;
    if paths != [] {
      EachTagged(paths[..|paths| - 1], f, tag);
    }
  }

  method BuildProfile(spec: ProfileSpec) returns (text: string)
    ensures text == Join(Lines(spec))
    ensures Silent(spec.logTag) ==> forall a :: TextPermits(text, a) == Granted(spec, a)
  {
    hide PreambleLines, ShowEach, ReadSection, WriteSection, DenySection, TextPermits, Granted, Join, Silent;
    var p := EmitPreamble([], spec.logTag);
    p := EmitReadRules(p, spec);
    p := EmitWriteRules(p, spec);
    assert p == Lines(spec);
    text := Join(p);
    if Silent(spec.logTag) {
      forall a ensures TextPermits(text, a) == Granted(spec, a) {
        TextMeansGranted(spec, a);
      }
    }
  }

  // ---- The mandatory write denials ----

  const MANDATORY := [".git/hooks", ".git/config", ".env", ".mcp.json"]

  /** `workspace.join(rel)` of each protected name. */
  function MandatoryWorkspaceDenies(workspace: string): seq<string> {
    seq(|MANDATORY|, i requires 0 <= i < |MANDATORY| => Below(workspace, MANDATORY[i]))
  }

  function Below(dir: string, name: string): string {
    (if dir != "" && dir[|dir| - 1] == '/' then dir else dir + "/") + name
  }

  predicate IsProtected(name: string) {
    name == ".git/hooks" || name == ".git/config" || name == ".env" || name == ".mcp.json"
  }

  lemma ProtectedListed(name: string)
    ensures IsProtected(name) <==> name in MANDATORY
  {
    var m := MANDATORY;
    assert m[0] in m && m[1] in m && m[2] in m && m[3] in m;
  }

  /** Nothing at or below a protected path is written, whatever the rest of the spec says; reading is as without it. */
  lemma MandatoryWritesDenied(spec: ProfileSpec, name: string, a: Access)
    requires Silent(spec.logTag) && IsProtected(name)
    requires MandatoryWorkspaceDenies(spec.workspace) <= spec.denyWrite
    requires Under(Below(spec.workspace, name), a.path)
    ensures IsWrite(a.op) ==> !TextPermits(Join(Lines(spec)), a)
    ensures IsRead(a.op) ==> TextPermits(Join(Lines(spec)), a) == TextPermits(Join(Lines(spec.(denyWrite := []))), a)
  {
    ProtectedListed(name);
    OperationsApart(a.op);
    hide TextPermits, Join, Lines, Under, Below, MANDATORY, IsDevice, Silent, IsProtected, IsRead, IsWrite, IsFree,
      IsInward, IsRuntime;
    TextMeansGranted(spec, a);
    TextMeansGranted(spec.(denyWrite := []), a);
    var i :| 0 <= i < |MANDATORY| && MANDATORY[i] == name;
    assert spec.denyWrite[i] == MandatoryWorkspaceDenies(spec.workspace)[i];
    assert UnderAny(spec.denyWrite, a.path);
  }
}
