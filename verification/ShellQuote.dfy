/** The command line of a detached task, and a POSIX word splitter that reads it back. */
module ShellQuote {
  import opened Wrappers

  // ---- Printer ----

  predicate PlainChar(c: char) {
    'a' <= c <= 'z' || 'A' <= c <= 'Z' || '0' <= c <= '9' || c == '-' || c == '_' || c == '.' || c == '/'
  }

  predicate Plain(s: string) {
    forall i :: 0 <= i < |s| ==> PlainChar(s[i])
  }

  /** Each single quote becomes close, escaped quote, reopen. */
  function EscapeQuotes(s: string): string {
    if s == "" then "" else (if s[0] == '\'' then "'\\''" else [s[0]]) + EscapeQuotes(s[1..])
  }

  function QuoteArg(s: string): string {
    if s != "" && Plain(s) then s else "'" + (EscapeQuotes(s) + "'")
  }

  function TaskCommandLine(rfcId: string, taskId: string, agent: string, project: string): string {
    "orkia rfc dispatch-task " + (QuoteArg(rfcId) + (" --task " + (QuoteArg(taskId) +
    (" --agent " + (QuoteArg(agent) + (" --project " + QuoteArg(project)))))))
  }

  // ---- Splitter: XCU sections 2.2.1 and 2.2.2 of POSIX.1-2017 ----

  datatype Mode = Between | InWord | InQuotes

  predicate Separator(c: char) {
    c == ' ' || c == '\t' || c == '\n'
  }

  /** Characters that mean something else to the shell when they stand unquoted. */
  predicate Special(c: char) {
    c in "|&;<>()$`\"*?[#~=%"
  }

  /** The words of `s`, or None if a quote is open at the end or an unquoted character asks for more than splitting. */
  function Words(s: string, mode: Mode, word: string): Option<seq<string>> {
    if s == "" then
      match mode
      case Between => Some([])
      case InWord => Some([word])
      case InQuotes => None
    else
      var c, rest := s[0], s[1..];
      if mode.InQuotes? then
        if c == '\'' then Words(rest, InWord, word) else Words(rest, InQuotes, word + [c])
      else if c == '\'' then Words(rest, InQuotes, word)
      else if c == '\\' then
        if rest == "" then None
        else if rest[0] == '\n' then Words(rest[1..], mode, word)
        else Words(rest[1..], InWord, word + [rest[0]])
      else if Separator(c) then
        if mode.Between? then Words(rest, Between, "")
        else
          match Words(rest, Between, "")
          case None => None
          case Some(more) => Some([word] + more)
      else if Special(c) then None
      else Words(rest, InWord, word + [c])
  }

  function Split(line: string): Option<seq<string>> {
    Words(line, Between, "")
  }

  // ---- Round trip ----

  lemma PlainIsOrdinary(c: char)
    requires PlainChar(c)
    ensures !Special(c) && !Separator(c) && c != '\'' && c != '\\'
  {
  }

  lemma PlainStep(c: char, rest: string, word: string)
    requires PlainChar(c)
    ensures Words([c] + rest, InWord, word) == Words(rest, InWord, word + [c])
    ensures Words([c] + rest, Between, "") == Words(rest, InWord, [c])
  {
    PlainIsOrdinary(c);
    hide PlainChar, Special, Separator;
    assert ([c] + rest)[1..] == rest;
    assert "" + [c] == [c];
  }

  lemma QuoteStep(c: char, rest: string, word: string)
    ensures Words([c] + rest, InQuotes, word) == if c == '\'' then Words(rest, InWord, word)
      else Words(rest, InQuotes, word + [c])
    ensures Words(['\''] + rest, Between, "") == Words(rest, InQuotes, "")
  {
    assert ([c] + rest)[1..] == rest && (['\''] + rest)[1..] == rest;
  }

  lemma {:induction false} PlainIsOneWord(s: string, rest: string, word: string)
    requires Plain(s)
    ensures Words(s + rest, InWord, word) == Words(rest, InWord, word + s)
  {
    hide Words, PlainChar;
    if s == "" {
      assert s + rest == rest && word + s == word;
    } else {
      PlainStep(s[0], s[1..] + rest, word);
      PlainIsOneWord(s[1..], rest, word + [s[0]]);
      assert s + rest == [s[0]] + (s[1..] + rest);
      assert word + [s[0]] + s[1..] == word + s;
    }
  }

  lemma {:induction false} EscapedIsOneWord(s: string, rest: string, word: string)
    ensures Words(EscapeQuotes(s) + (['\''] + rest), InQuotes, word) == Words(rest, InWord, word + s)
  {
    hide Words;
    var end := ['\''] + rest;
    if s == "" {
      assert EscapeQuotes(s) + end == end && word + s == word;
      QuoteStep('\'', rest, word);
    } else {
      var tail := EscapeQuotes(s[1..]) + end;
      EscapedIsOneWord(s[1..], rest, word + [s[0]]);
      assert word + [s[0]] + s[1..] == word + s;
      if s[0] == '\'' {
        assert EscapeQuotes(s) + end == "'\\''" + tail;
        EscapedQuote(tail, word);
      } else {
        assert EscapeQuotes(s) + end == [s[0]] + tail;
        QuoteStep(s[0], tail, word);
      }
    }
  }

  lemma EscapedQuote(tail: string, word: string)
    ensures Words("'\\''" + tail, InQuotes, word) == Words(tail, InQuotes, word + ['\''])
  {
    var s := "'\\''" + tail;
    var s1, s2, s3 := "\\''" + tail, "''" + tail, "'" + tail;
    assert s[1..] == s1 && s1[1..] == s2 && s2[1..] == s3 && s3[1..] == tail;
    assert Words(s, InQuotes, word) == Words(s1, InWord, word);
    assert Words(s1, InWord, word) == Words(s3, InWord, word + ['\'']);
    assert Words(s3, InWord, word + ['\'']) == Words(tail, InQuotes, word + ['\'']);
  }

  lemma NothingBefore(s: string)
    ensures "" + s == s
  {
  }

  lemma PlainArgument(arg: string, rest: string)
    requires arg != "" && Plain(arg)
    ensures Words(arg + rest, Between, "") == Words(rest, InWord, arg)
  {
    hide Words, PlainChar;
    PlainStep(arg[0], arg[1..] + rest, "");
    PlainIsOneWord(arg[1..], rest, [arg[0]]);
    assert arg + rest == [arg[0]] + (arg[1..] + rest);
    assert [arg[0]] + arg[1..] == arg;
  }

  lemma EscapedArgument(arg: string, rest: string)
    ensures Words("'" + (EscapeQuotes(arg) + "'") + rest, Between, "") == Words(rest, InWord, arg)
  {
    hide Words, EscapeQuotes;
    var tail := EscapeQuotes(arg) + (['\''] + rest);
    assert "'" + (EscapeQuotes(arg) + "'") + rest == ['\''] + tail;
    QuoteStep('\'', tail, "");
    EscapedIsOneWord(arg, rest, "");
    NothingBefore(arg);
  }

  /** A quoted argument is one word, whatever it holds. */
  lemma QuotedIsOneWord(arg: string, rest: string)
    ensures Words(QuoteArg(arg) + rest, Between, "") == Words(rest, InWord, arg)
  {
    hide Words, Plain, EscapeQuotes;
    if arg != "" && Plain(arg) {
      PlainArgument(arg, rest);
    } else {
      EscapedArgument(arg, rest);
    }
  }

  function JoinQuoted(args: seq<string>): string
    requires args != []
  {
    if |args| == 1 then QuoteArg(args[0]) else QuoteArg(args[0]) + (" " + JoinQuoted(args[1..]))
  }

  /** Splitting a line of quoted arguments gives the arguments. */
  lemma {:induction false} SplitJoined(args: seq<string>)
    requires args != []
    ensures Split(JoinQuoted(args)) == Some(args)
  {
    if |args| == 1 {
      QuotedIsOneWord(args[0], "");
      assert QuoteArg(args[0]) + "" == QuoteArg(args[0]);
      assert [args[0]] == args;
    } else {
      var more := " " + JoinQuoted(args[1..]);
      QuotedIsOneWord(args[0], more);
      assert more[1..] == JoinQuoted(args[1..]);
      SplitJoined(args[1..]);
      assert [args[0]] + args[1..] == args;
    }
  }

  function TaskWords(rfcId: string, taskId: string, agent: string, project: string): seq<string> {
    ["orkia", "rfc", "dispatch-task", rfcId, "--task", taskId, "--agent", agent, "--project", project]
  }

  lemma PlainStays(s: string)
    requires s != "" && Plain(s)
    ensures QuoteArg(s) == s
  {
  }

  lemma PlainLiterals()
    ensures Plain("orkia") && Plain("rfc") && Plain("dispatch-task")
    ensures Plain("--task") && Plain("--agent") && Plain("--project")
  {
  }

  lemma JoinStep(args: seq<string>, k: nat, rest: string)
    requires k + 1 < |args| && JoinQuoted(args[k + 1..]) == rest
    ensures JoinQuoted(args[k..]) == QuoteArg(args[k]) + (" " + rest)
  {
    assert args[k..][1..] == args[k + 1..];
  }

  lemma JoinPlainStep(args: seq<string>, k: nat, rest: string)
    requires k + 1 < |args| && JoinQuoted(args[k + 1..]) == rest && args[k] != "" && Plain(args[k])
    ensures JoinQuoted(args[k..]) == args[k] + (" " + rest)
  {
    JoinStep(args, k, rest);
    PlainStays(args[k]);
  }

  lemma Spacing(x: string)
    ensures " --project " + x == " " + ("--project" + (" " + x))
    ensures " --agent " + x == " " + ("--agent" + (" " + x))
    ensures " --task " + x == " " + ("--task" + (" " + x))
    ensures "orkia rfc dispatch-task " + x == "orkia" + (" " + ("rfc" + (" " + ("dispatch-task" + (" " + x)))))
  {
  }

  lemma LineIsJoined(rfcId: string, taskId: string, agent: string, project: string)
    ensures TaskCommandLine(rfcId, taskId, agent, project) == JoinQuoted(TaskWords(rfcId, taskId, agent, project))
  {
    PlainLiterals();
    var w := TaskWords(rfcId, taskId, agent, project);
    var s9 := QuoteArg(project);
    assert w[9..] == [project];
    JoinPlainStep(w, 8, s9);
    Spacing(s9);
    var s7 := QuoteArg(agent) + (" --project " + s9);
    JoinStep(w, 7, "--project" + (" " + s9));
    JoinPlainStep(w, 6, s7);
    Spacing(s7);
    var s5 := QuoteArg(taskId) + (" --agent " + s7);
    JoinStep(w, 5, "--agent" + (" " + s7));
    JoinPlainStep(w, 4, s5);
    Spacing(s5);
    var s3 := QuoteArg(rfcId) + (" --task " + s5);
    JoinStep(w, 3, "--task" + (" " + s5));
    JoinPlainStep(w, 2, s3);
    JoinPlainStep(w, 1, "dispatch-task" + (" " + s3));
    JoinPlainStep(w, 0, "rfc" + (" " + ("dispatch-task" + (" " + s3))));
    Spacing(s3);
    assert w[0..] == w;
  }

  /** The re-run handler recovers all ten words of the line, so the line determines its four arguments. */
  lemma CommandLineSplits(rfcId: string, taskId: string, agent: string, project: string)
    ensures Split(TaskCommandLine(rfcId, taskId, agent, project)) == Some(TaskWords(rfcId, taskId, agent, project))
  {
    LineIsJoined(rfcId, taskId, agent, project);
    SplitJoined(TaskWords(rfcId, taskId, agent, project));
  }

  lemma CommandLineInjective(r: string, t: string, a: string, p: string, r': string, t': string, a': string, p': string)
    requires TaskCommandLine(r, t, a, p) == TaskCommandLine(r', t', a', p')
    ensures r == r' && t == t' && a == a' && p == p'
  {
    CommandLineSplits(r, t, a, p);
    CommandLineSplits(r', t', a', p');
    var w, w' := TaskWords(r, t, a, p), TaskWords(r', t', a', p');
    assert w[3] == w'[3] && w[5] == w'[5] && w[7] == w'[7] && w[9] == w'[9];
  }
}
