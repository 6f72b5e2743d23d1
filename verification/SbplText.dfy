/**
 * The text of a Seatbelt profile: parenthesised forms of words, with nested clauses that may end in a
 * string. The printer is what the profile generator writes; the reader is the other side.
 */
module SbplText {
  import opened Wrappers
  import opened Text

  datatype Arg = NoArg | Quoted(text: string) | Regex(text: string)

  /** `(subpath "/a")`, `(vnode-type DIRECTORY)`, `(with message "job-7")`. */
  datatype Clause = Clause(words: seq<string>, arg: Arg)

  /** `(version 1)`, `(allow file-read* (literal "/"))`. */
  datatype Form = Form(words: seq<string>, clauses: seq<Clause>)

  // ---- String literals ----

  function Escape(c: char): string {
    if c == '"' then "\\\"" else if c == '\\' then "\\\\" else [c]
  }

  function Escaped(s: string): string {
    if s == "" then "" else Escape(s[0]) + Escaped(s[1..])
  }

  function Literal(s: string): string {
    "\"" + (Escaped(s) + "\"")
  }

  method EscapeSbpl(s: string) returns (out: string)
    ensures out == Literal(s)
  {
    out := "\"";
    assert s[0..] == s;
    for i := 0 to |s|
      invariant out + Escaped(s[i..]) == "\"" + Escaped(s)
    {
      assert s[i..][1..] == s[i + 1..];
      assert forall more: string :: out + (Escape(s[i]) + more) == (out + Escape(s[i])) + more;
      if s[i] == '"' {
        out := out + "\\\"";
      } else if s[i] == '\\' {
        out := out + "\\\\";
      } else {
        out := out + [s[i]];
      }
    }
    assert out + Escaped(s[|s|..]) == out;
    assert "\"" + Escaped(s) + "\"" == Literal(s);
    out := out + "\"";
  }

  /** The text and the remainder behind an opening quote. */
  function ReadString(s: string): (r: Option<(string, string)>)
    ensures r.Some? ==> |r.value.1| < |s|
    decreases |s|
  {
    if s == "" then None
    else if s[0] == '"' then Some(("", s[1..]))
    else if s[0] == '\\' && |s| == 1 then None
    else
      var n := if s[0] == '\\' then 2 else 1;
      match ReadString(s[n..])
      case None => None
      case Some(more) => Some(([s[n - 1]] + more.0, more.1))
  }

  lemma ReadEscape(c: char, more: string)
    ensures ReadString(Escape(c) + more) ==
      match ReadString(more) case None => None case Some(cut) => Some(([c] + cut.0, cut.1))
  {
    var head := Escape(c);
    var text := head + more;
    assert text[|head|..] == more;
  }

  lemma {:induction false} ReadEscaped(s: string, rest: string)
    ensures ReadString(Escaped(s) + ("\"" + rest)) == Some((s, rest))
  {
    hide Escape;
    var tail := "\"" + rest;
    if s == "" {
      assert Escaped(s) + tail == tail && tail[1..] == rest;
    } else {
      var more := Escaped(s[1..]) + tail;
      ReadEscaped(s[1..], rest);
      ReadEscape(s[0], more);
      assert Escaped(s) + tail == Escape(s[0]) + more;
      assert s == [s[0]] + s[1..];
    }
  }

  // ---- Tokens ----

  datatype Token = Open | Close | Word(name: string) | Str(text: string) | Pattern(text: string) | Bad

  predicate WordChar(c: char) {
    !IsWhitespace(c) && c != '(' && c != ')' && c != '"' && c != ';' && c != '#'
  }

  predicate IsWord(w: string) {
    w != "" && forall i :: 0 <= i < |w| ==> WordChar(w[i])
  }

  /** The length of the longest run of word characters at the front. */
  function WordLength(s: string): (n: nat)
    ensures n <= |s| && (forall i :: 0 <= i < n ==> WordChar(s[i])) && (n < |s| ==> !WordChar(s[n]))
  {
    if s == "" || !WordChar(s[0]) then 0
    else
      assert forall i :: 1 <= i < |s| ==> s[i] == s[1..][i - 1];
      1 + WordLength(s[1..])
  }

  function SkipLine(s: string): (r: string)
    ensures |r| <= |s|
  {
    if s == "" || s[0] == '\n' then s else SkipLine(s[1..])
  }

  function LexString(s: string, pattern: bool): seq<Token>
    decreases |s|, 0
  {
    match ReadString(s)
    case None => [Bad]
    case Some(cut) => [if pattern then Pattern(cut.0) else Str(cut.0)] + Lex(cut.1)
  }

  function Lex(s: string): seq<Token>
    decreases |s|, 1
  {
    if s == "" then []
    else if IsWhitespace(s[0]) then Lex(s[1..])
    else if s[0] == ';' then Lex(SkipLine(s[1..]))
    else if s[0] == '(' then [Open] + Lex(s[1..])
    else if s[0] == ')' then [Close] + Lex(s[1..])
    else if s[0] == '"' then LexString(s[1..], false)
    else if s[0] == '#' then
      if |s| > 1 && s[1] == '"' then LexString(s[2..], true) else [Bad] + Lex(s[1..])
    else
      var n := WordLength(s);
      [Word(s[..n])] + Lex(s[n..])
  }

  // ---- The printer ----

  function ShowWords(ws: seq<string>): string {
    if ws == [] then "" else if |ws| == 1 then ws[0] else ws[0] + (" " + ShowWords(ws[1..]))
  }

  function ShowArg(arg: Arg): string {
    match arg
    case NoArg => ""
    case Quoted(text) => " " + Literal(text)
    case Regex(text) => " #" + Literal(text)
  }

  function ShowClause(c: Clause): string {
    "(" + (ShowWords(c.words) + (ShowArg(c.arg) + ")"))
  }

  function ShowClauses(cs: seq<Clause>): string {
    if cs == [] then "" else " " + (ShowClause(cs[0]) + ShowClauses(cs[1..]))
  }

  function Show(f: Form): string {
    "(" + (ShowWords(f.words) + (ShowClauses(f.clauses) + ")"))
  }

  // ---- Printed text lexes back ----

  ghost predicate AllWords(ws: seq<string>) {
    forall i :: 0 <= i < |ws| ==> IsWord(ws[i])
  }

  ghost predicate ClauseOk(c: Clause) {
    c.words != [] && AllWords(c.words)
  }

  ghost predicate FormOk(f: Form) {
    f.words != [] && AllWords(f.words) && forall i :: 0 <= i < |f.clauses| ==> ClauseOk(f.clauses[i])
  }

  ghost function WordTokens(ws: seq<string>): seq<Token> {
    if ws == [] then [] else [Word(ws[0])] + WordTokens(ws[1..])
  }

  ghost function ArgTokens(arg: Arg): seq<Token> {
    match arg
    case NoArg => []
    case Quoted(text) => [Str(text)]
    case Regex(text) => [Pattern(text)]
  }

  ghost function ClauseTokens(c: Clause): seq<Token> {
    [Open] + (WordTokens(c.words) + (ArgTokens(c.arg) + [Close]))
  }

  ghost function ClausesTokens(cs: seq<Clause>): seq<Token> {
    if cs == [] then [] else ClauseTokens(cs[0]) + ClausesTokens(cs[1..])
  }

  ghost function FormTokens(f: Form): seq<Token> {
    [Open] + (WordTokens(f.words) + (ClausesTokens(f.clauses) + [Close]))
  }

  ghost function FormsTokens(fs: seq<Form>): seq<Token> {
    if fs == [] then [] else FormTokens(fs[0]) + FormsTokens(fs[1..])
  }

  lemma LexOne(c: char, rest: string)
    requires c == '(' || c == ')' || IsWhitespace(c)
    ensures Lex([c] + rest) == (if c == '(' then [Open] else if c == ')' then [Close] else []) + Lex(rest)
    ensures EndsWord([c] + rest)
  {
    assert ([c] + rest)[1..] == rest;
  }

  ghost predicate EndsWord(rest: string) {
    rest == "" || !WordChar(rest[0])
  }

  lemma LexWord(w: string, rest: string)
    requires IsWord(w) && EndsWord(rest)
    ensures Lex(w + rest) == [Word(w)] + Lex(rest)
  {
    var s := w + rest;
    assert forall i :: 0 <= i < |w| ==> s[i] == w[i];
    assert rest != "" ==> s[|w|] == rest[0];
    assert WordLength(s) == |w|;
    assert s[..|w|] == w && s[|w|..] == rest;
  }

  lemma {:induction false} LexWords(ws: seq<string>, rest: string)
    requires AllWords(ws) && ws != [] && EndsWord(rest)
    ensures Lex(ShowWords(ws) + rest) == WordTokens(ws) + Lex(rest)
  {
    hide Lex, IsWord, EndsWord, WordChar, IsWhitespace;
    assert WordTokens(ws) == [Word(ws[0])] + WordTokens(ws[1..]);
    if |ws| == 1 {
      LexWord(ws[0], rest);
    } else {
      assert ShowWords(ws) == ws[0] + (" " + ShowWords(ws[1..]));
      hide ShowWords, WordTokens;
      var more := ShowWords(ws[1..]) + rest;
      assert ShowWords(ws) + rest == ws[0] + ([' '] + more);
      LexWords(ws[1..], rest);
      Space(more);
      LexWord(ws[0], [' '] + more);
    }
  }

  lemma Space(rest: string)
    ensures Lex([' '] + rest) == Lex(rest) && EndsWord([' '] + rest)
  {
    LexOne(' ', rest);
  }

  lemma LexLiteral(s: string, rest: string)
    ensures Lex(Literal(s) + rest) == [Str(s)] + Lex(rest)
    ensures Lex("#" + (Literal(s) + rest)) == [Pattern(s)] + Lex(rest)
  {
    var text, inner := Literal(s) + rest, Escaped(s) + ("\"" + rest);
    assert text == "\"" + inner;
    assert text[1..] == inner && ("#" + text)[2..] == inner;
    ReadEscaped(s, rest);
  }

  lemma LexArg(arg: Arg, rest: string)
    ensures Lex(ShowArg(arg) + rest) == ArgTokens(arg) + Lex(rest)
    ensures EndsWord(rest) ==> EndsWord(ShowArg(arg) + rest)
  {
    hide Lex, Literal;
    match arg
    case NoArg =>
      assert ShowArg(arg) + rest == rest;
    case Quoted(s) =>
      assert ShowArg(arg) + rest == [' '] + (Literal(s) + rest);
      LexOne(' ', Literal(s) + rest);
      LexLiteral(s, rest);
    case Regex(s) =>
      assert ShowArg(arg) + rest == [' '] + ("#" + (Literal(s) + rest));
      LexOne(' ', "#" + (Literal(s) + rest));
      LexLiteral(s, rest);
  }

  lemma LexClause(c: Clause, rest: string)
    requires ClauseOk(c)
    ensures Lex(ShowClause(c) + rest) == ClauseTokens(c) + Lex(rest)
  {
    hide Lex, ShowWords, ShowArg, WordTokens, ArgTokens;
    var end := [')'] + rest;
    var args := ShowArg(c.arg) + end;
    assert ShowClause(c) + rest == ['('] + (ShowWords(c.words) + args);
    LexOne('(', ShowWords(c.words) + args);
    LexArg(c.arg, end);
    LexWords(c.words, args);
    LexOne(')', rest);
  }

  lemma {:induction false} LexClauses(cs: seq<Clause>, rest: string)
    requires forall i :: 0 <= i < |cs| ==> ClauseOk(cs[i])
    ensures Lex(ShowClauses(cs) + rest) == ClausesTokens(cs) + Lex(rest)
    ensures EndsWord(rest) ==> EndsWord(ShowClauses(cs) + rest)
  {
    hide Lex, ShowClause, ClauseTokens, ClauseOk;
    if cs == [] {
      assert ShowClauses(cs) + rest == rest;
    } else {
      var more := ShowClauses(cs[1..]) + rest;
      assert ShowClauses(cs) + rest == [' '] + (ShowClause(cs[0]) + more);
      LexOne(' ', ShowClause(cs[0]) + more);
      LexClause(cs[0], more);
      LexClauses(cs[1..], rest);
    }
  }

  lemma LexForm(f: Form, rest: string)
    requires FormOk(f)
    ensures Lex(Show(f) + rest) == FormTokens(f) + Lex(rest)
  {
    hide Lex, ShowWords, ShowClauses, WordTokens, ClausesTokens;
    var end := [')'] + rest;
    var clauses := ShowClauses(f.clauses) + end;
    assert Show(f) + rest == ['('] + (ShowWords(f.words) + clauses);
    LexOne('(', ShowWords(f.words) + clauses);
    LexClauses(f.clauses, end);
    LexWords(f.words, clauses);
    LexOne(')', rest);
  }

  // ---- The reader ----

  function TakeWords(ts: seq<Token>): (ws: seq<string>)
    ensures |ws| <= |ts|
  {
    if ts != [] && ts[0].Word? then [ts[0].name] + TakeWords(ts[1..]) else []
  }

  function TakeArg(ts: seq<Token>): (Arg, seq<Token>) {
    if ts != [] && ts[0].Str? then (Quoted(ts[0].text), ts[1..])
    else if ts != [] && ts[0].Pattern? then (Regex(ts[0].text), ts[1..])
    else (NoArg, ts)
  }

  /** A clause behind its opening parenthesis. */
  function ReadClause(ts: seq<Token>): (r: Option<(Clause, seq<Token>)>)
    ensures r.Some? ==> |r.value.1| < |ts|
  {
    var ws := TakeWords(ts);
    var (arg, rest) := TakeArg(ts[|ws|..]);
    if rest != [] && rest[0].Close? then Some((Clause(ws, arg), rest[1..])) else None
  }

  function ReadClauses(ts: seq<Token>): (r: Option<(seq<Clause>, seq<Token>)>)
    ensures r.Some? ==> |r.value.1| <= |ts|
    decreases |ts|
  {
    if ts == [] || !ts[0].Open? then Some(([], ts))
    else
      match ReadClause(ts[1..])
      case None => None
      case Some(first) =>
        match ReadClauses(first.1)
        case None => None
        case Some(more) => Some(([first.0] + more.0, more.1))
  }

  /** A form behind its opening parenthesis. */
  function ReadForm(ts: seq<Token>): (r: Option<(Form, seq<Token>)>)
    ensures r.Some? ==> |r.value.1| < |ts|
  {
    var ws := TakeWords(ts);
    match ReadClauses(ts[|ws|..])
    case None => None
    case Some(cut) =>
      if cut.1 != [] && cut.1[0].Close? then Some((Form(ws, cut.0), cut.1[1..])) else None
  }

  function ReadForms(ts: seq<Token>): Option<seq<Form>>
    decreases |ts|
  {
    if ts == [] then Some([])
    else if !ts[0].Open? then None
    else
      match ReadForm(ts[1..])
      case None => None
      case Some(first) =>
        match ReadForms(first.1)
        case None => None
        case Some(more) => Some([first.0] + more)
  }

  lemma {:induction false} TakeWordsBack(ws: seq<string>, rest: seq<Token>)
    requires rest != [] && !rest[0].Word?
    ensures TakeWords(WordTokens(ws) + rest) == ws && (WordTokens(ws) + rest)[|ws|..] == rest
  {
    var ts := WordTokens(ws) + rest;
    if ws == [] {
      assert ts == rest;
    } else {
      assert ts[1..] == WordTokens(ws[1..]) + rest;
      TakeWordsBack(ws[1..], rest);
      assert ts[|ws|..] == ts[1..][|ws| - 1..];
    }
  }

  lemma ReadClauseBack(c: Clause, rest: seq<Token>)
    ensures ReadClause((ClauseTokens(c) + rest)[1..]) == Some((c, rest))
  {
    var end := [Close] + rest;
    var args := ArgTokens(c.arg) + end;
    assert (ClauseTokens(c) + rest)[1..] == WordTokens(c.words) + args;
    TakeWordsBack(c.words, args);
    assert end[1..] == rest;
    assert c.arg.NoArg? ==> args == end;
    assert !c.arg.NoArg? ==> args[1..] == end;
  }

  lemma ReadClausesCons(c: Clause, more: seq<Token>)
    ensures ReadClauses(ClauseTokens(c) + more) ==
      match ReadClauses(more) case None => None case Some(cut) => Some(([c] + cut.0, cut.1))
  {
    hide ReadClause;
    ReadClauseBack(c, more);
    assert (ClauseTokens(c) + more)[0] == Open;
  }

  lemma {:induction false} ReadClausesBack(cs: seq<Clause>, rest: seq<Token>)
    requires rest != [] && !rest[0].Open?
    ensures ReadClauses(ClausesTokens(cs) + rest) == Some((cs, rest))
  {
    if cs == [] {
      assert ClausesTokens(cs) + rest == rest;
    } else {
      assert ClausesTokens(cs) == ClauseTokens(cs[0]) + ClausesTokens(cs[1..]);
      hide ReadClauses, ClausesTokens, ClauseTokens;
      var more := ClausesTokens(cs[1..]) + rest;
      assert ClausesTokens(cs) + rest == ClauseTokens(cs[0]) + more;
      ReadClausesCons(cs[0], more);
      ReadClausesBack(cs[1..], rest);
      assert cs == [cs[0]] + cs[1..];
    }
  }

  lemma ClausesHead(cs: seq<Clause>, rest: seq<Token>)
    requires rest != [] && !rest[0].Word?
    ensures !(ClausesTokens(cs) + rest)[0].Word?
  {
    assert cs != [] ==> ClausesTokens(cs)[0] == Open;
  }

  lemma ReadFormBack(f: Form, rest: seq<Token>)
    ensures ReadForm((FormTokens(f) + rest)[1..]) == Some((f, rest))
  {
    hide WordTokens, ClausesTokens, TakeWords, ReadClauses;
    var end := [Close] + rest;
    var clauses := ClausesTokens(f.clauses) + end;
    assert (FormTokens(f) + rest)[1..] == WordTokens(f.words) + clauses;
    ClausesHead(f.clauses, end);
    TakeWordsBack(f.words, clauses);
    ReadClausesBack(f.clauses, end);
    assert end[1..] == rest;
  }

  lemma ReadFormsCons(f: Form, more: seq<Token>)
    ensures ReadForms(FormTokens(f) + more) == match ReadForms(more) case None => None case Some(fs) => Some([f] + fs)
  {
    hide ReadForm;
    ReadFormBack(f, more);
    assert (FormTokens(f) + more)[0] == Open;
  }

  /** Reading the tokens of any forms gives the forms. */
  lemma {:induction false} ReadFormsBack(fs: seq<Form>)
    ensures ReadForms(FormsTokens(fs)) == Some(fs)
  {
    if fs != [] {
      assert FormsTokens(fs) == FormTokens(fs[0]) + FormsTokens(fs[1..]);
      ReadFormsBack(fs[1..]);
      hide ReadForms, FormsTokens, FormTokens;
      ReadFormsCons(fs[0], FormsTokens(fs[1..]));
      assert fs == [fs[0]] + fs[1..];
    }
  }

  // ---- The reader accepts nothing else ----

  lemma WordTokensCons(w: string, ws: seq<string>)
    ensures WordTokens([w] + ws) == [Word(w)] + WordTokens(ws)
  {
    assert ([w] + ws)[1..] == ws;
  }

  lemma {:induction false} WordsExact(ts: seq<Token>)
    ensures ts == WordTokens(TakeWords(ts)) + ts[|TakeWords(ts)|..]
  {
    if ts != [] && ts[0].Word? {
      var ws, more := TakeWords(ts[1..]), ts[1..];
      assert TakeWords(ts) == [ts[0].name] + ws;
      WordTokensCons(ts[0].name, ws);
      WordsExact(more);
      hide TakeWords, WordTokens;
      var tail := more[|ws|..];
      assert ts[|ws| + 1..] == tail;
      assert ts == [ts[0]] + more;
      assert [ts[0]] + (WordTokens(ws) + tail) == ([ts[0]] + WordTokens(ws)) + tail;
    }
  }

  lemma Regroup(a: seq<Token>, b: seq<Token>, rest: seq<Token>)
    ensures [Open] + (a + (b + ([Close] + rest))) == [Open] + (a + (b + [Close])) + rest
  {
  }

  lemma TakeArgExact(ts: seq<Token>)
    ensures ts == ArgTokens(TakeArg(ts).0) + TakeArg(ts).1
  {
  }

  lemma ClauseExact(ts: seq<Token>)
    requires ReadClause(ts).Some?
    ensures var (c, rest) := ReadClause(ts).value; [Open] + ts == ClauseTokens(c) + rest
  {
    hide TakeWords, WordTokens, TakeArg, ArgTokens;
    WordsExact(ts);
    var ws := TakeWords(ts);
    TakeArgExact(ts[|ws|..]);
    var (arg, rest) := TakeArg(ts[|ws|..]);
    assert rest == [Close] + rest[1..];
    Regroup(WordTokens(ws), ArgTokens(arg), rest[1..]);
  }

  lemma {:induction false} ClausesExact(ts: seq<Token>)
    requires ReadClauses(ts).Some?
    ensures var (cs, rest) := ReadClauses(ts).value; ts == ClausesTokens(cs) + rest
    decreases |ts|
  {
    hide ReadClause, ClauseTokens;
    if ts != [] && ts[0].Open? {
      var first := ReadClause(ts[1..]).value;
      ClauseExact(ts[1..]);
      ClausesExact(first.1);
      var cs := ReadClauses(ts).value.0;
      assert cs[0] == first.0 && cs[1..] == ReadClauses(first.1).value.0;
      assert ts == [Open] + ts[1..];
    }
  }

  lemma FormExact(ts: seq<Token>)
    requires ReadForm(ts).Some?
    ensures var (f, rest) := ReadForm(ts).value; [Open] + ts == FormTokens(f) + rest
  {
    hide TakeWords, WordTokens, ReadClauses, ClausesTokens;
    WordsExact(ts);
    var ws := TakeWords(ts);
    ClausesExact(ts[|ws|..]);
    var (cs, rest) := ReadClauses(ts[|ws|..]).value;
    assert rest == [Close] + rest[1..];
    Regroup(WordTokens(ws), ClausesTokens(cs), rest[1..]);
  }

  /** The reader finds forms in exactly their own tokens. */
  lemma {:induction false} ReadFormsExact(ts: seq<Token>, fs: seq<Form>)
    ensures ReadForms(ts) == Some(fs) <==> ts == FormsTokens(fs)
    decreases |ts|
  {
    ReadFormsBack(fs);
    if ReadForms(ts) == Some(fs) && ts != [] {
      hide ReadForm, FormTokens;
      var first := ReadForm(ts[1..]).value;
      FormExact(ts[1..]);
      assert fs[0] == first.0 && ReadForms(first.1) == Some(fs[1..]);
      ReadFormsExact(first.1, fs[1..]);
      assert ts == [Open] + ts[1..];
    }
  }

  // ---- Text in front of a profile ----

  /** Text that neither ends a string literal nor escapes in one. */
  predicate Inert(s: string) {
    forall i :: 0 <= i < |s| ==> s[i] != '"' && s[i] != '\\'
  }

  lemma {:induction false} SkipLineThen(s: string, rest: string)
    requires rest != "" && rest[0] == '\n'
    ensures SkipLine(s + rest) == SkipLine(s) + rest
  {
    if s == "" || s[0] == '\n' {
      assert (s + rest)[0] == '\n';
      assert "" + rest == rest;
    } else {
      assert (s + rest)[1..] == s[1..] + rest;
      SkipLineThen(s[1..], rest);
    }
  }

  /** One character that is neither a word's nor a comment's adds at most one token. */
  lemma LexHead(c: char, rest: string)
    requires !WordChar(c) && c != ';' && c != '"' && (c == '#' && rest != "" ==> rest[0] != '"')
    ensures Lex([c] + rest) ==
      (if IsWhitespace(c) then [] else if c == '(' then [Open] else if c == ')' then [Close] else [Bad]) + Lex(rest)
  {
    assert ([c] + rest)[1..] == rest;
  }

  lemma LexNote(rest: string)
    ensures Lex([';'] + rest) == Lex(SkipLine(rest))
  {
    assert ([';'] + rest)[1..] == rest;
  }

  lemma LexNothing()
    ensures Lex("") == []
  {
  }

  lemma WordPart(s: string, rest: string)
    requires s != "" && WordChar(s[0]) && EndsWord(rest)
    ensures var n := WordLength(s);
            n > 0 && Lex(s) == [Word(s[..n])] + Lex(s[n..]) &&
            Lex(s + rest) == [Word(s[..n])] + Lex(s[n..] + rest)
  {
    hide Lex;
    var n := WordLength(s);
    var w, more := s[..n], s[n..];
    assert s == w + more && s + rest == w + (more + rest);
    LexWord(w, more);
    LexWord(w, more + rest);
  }

  lemma {:induction false} ReadInert(p: string, q: string)
    requires Inert(p)
    ensures ReadString(p + ("\"" + q)) == Some((p, q))
  {
    var s := p + ("\"" + q);
    if p == "" {
      assert s == "\"" + q && s[1..] == q;
    } else {
      ReadInert(p[1..], q);
      assert s[0] == p[0] && s[1..] == p[1..] + ("\"" + q);
      assert p == [p[0]] + p[1..];
    }
  }

  /** A literal that ends in `x` ends there; one that does not is closed by the first quote behind `x`. */
  lemma {:induction false} ReadOn(x: string, p: string, q: string)
    requires Inert(p) && p != ""
    ensures var r, on := ReadString(x), ReadString(x + (p + ("\"" + q)));
            if r.Some? then on == Some((r.value.0, r.value.1 + (p + ("\"" + q)))) else on.Some? && on.value.1 == q
    decreases |x|
  {
    var rest := p + ("\"" + q);
    var s := x + rest;
    if x == "" {
      assert s == rest;
      ReadInert(p, q);
    } else if x[0] == '"' {
      assert s[1..] == x[1..] + rest;
    } else if x == "\\" {
      assert s[0] == '\\' && s[2..] == p[1..] + ("\"" + q);
      ReadInert(p[1..], q);
    } else {
      var n := if x[0] == '\\' then 2 else 1;
      assert x[0] == '\\' ==> |x| > 1 by {
        assert |x| == 1 ==> x == [x[0]];
      }
      ReadOn(x[n..], p, q);
      assert s[n..] == x[n..] + rest && s[n - 1] == x[n - 1] && s[0] == x[0];
    }
  }

  lemma LexQuote(rest: string)
    ensures Lex(['"'] + rest) == LexString(rest, false)
    ensures Lex(['#'] + (['"'] + rest)) == LexString(rest, true)
  {
    assert (['"'] + rest)[1..] == rest && (['#'] + (['"'] + rest))[2..] == rest;
  }

  /** `rest` starts with a line break and has its first quote behind `p`. */
  predicate Opens(rest: string, p: string, q: string) {
    Inert(p) && p != "" && p[0] == '\n' && rest == p + ("\"" + q)
  }

  lemma OpensHead(rest: string, p: string, q: string)
    requires Opens(rest, p, q)
    ensures rest != "" && rest[0] == '\n' && EndsWord(rest)
  {
  }

  /** The tokens of `s` stand in front of those of `rest`, or `s` leaves a literal open that swallows `rest` up to `q`.
      */
  predicate Joined(s: string, rest: string, q: string, open: bool, head: seq<Token>) {
    if open then Lex(s) != [] && Lex(s + rest) == head + Lex(q) else Lex(s + rest) == Lex(s) + Lex(rest)
  }

  lemma JoinedCons(x: seq<Token>, s: string, m: string, rest: string, q: string, open: bool, head: seq<Token>)
    requires Joined(m, rest, q, open, head) && Lex(s) == x + Lex(m) && Lex(s + rest) == x + Lex(m + rest)
    ensures Joined(s, rest, q, open, x + head)
  {
    hide Lex;
    assert !open ==> x + (Lex(m) + Lex(rest)) == (x + Lex(m)) + Lex(rest);
    assert open ==> x + (head + Lex(q)) == (x + head) + Lex(q);
  }

  lemma {:induction false} LexOn(s: string, rest: string, p: string, q: string) returns (open: bool, head: seq<Token>)
    requires Opens(rest, p, q)
    ensures Joined(s, rest, q, open, head)
    decreases |s|, 1
  {
    hide Lex, Joined, Opens, IsWhitespace, WordChar, EndsWord;
    OpensHead(rest, p, q);
    if s == "" {
      JoinedNothing(rest, q);
      open, head := false, [];
    } else if WordChar(s[0]) {
      WordPart(s, rest);
      var n := WordLength(s);
      open, head := LexOn(s[n..], rest, p, q);
      JoinedCons([Word(s[..n])], s, s[n..], rest, q, open, head);
      head := [Word(s[..n])] + head;
    } else if s[0] == '"' {
      assert Quotes(s, s[1..], false);
      open, head := LexOnString(s, s[1..], rest, p, q, false);
    } else if s[0] == '#' && |s| > 1 && s[1] == '"' {
      assert Quotes(s, s[2..], true);
      open, head := LexOnString(s, s[2..], rest, p, q, true);
    } else {
      open, head := LexOnChar(s, rest, p, q);
    }
  }

  lemma JoinedNothing(rest: string, q: string)
    ensures Joined("", rest, q, false, [])
  {
    LexNothing();
    hide Lex;
    assert "" + rest == rest;
  }

  /** `inner` is what follows the opening quote of `s`. */
  predicate Quotes(s: string, inner: string, pattern: bool) {
    s == if pattern then ['#'] + (['"'] + inner) else ['"'] + inner
  }

  lemma ConsThen(c: char, s: string, rest: string)
    ensures ([c] + s) + rest == [c] + (s + rest)
  {
  }

  lemma LexQuotes(s: string, inner: string, rest: string, pattern: bool)
    requires Quotes(s, inner, pattern)
    ensures Lex(s) == LexString(inner, pattern) && Lex(s + rest) == LexString(inner + rest, pattern)
  {
    hide Lex, LexString;
    LexQuote(inner);
    LexQuote(inner + rest);
    ConsThen('"', inner, rest);
    if pattern {
      ConsThen('#', ['"'] + inner, rest);
    }
  }

  lemma ReadOnRest(x: string, rest: string, p: string, q: string)
    requires Opens(rest, p, q)
    ensures var r, on := ReadString(x), ReadString(x + rest);
            if r.Some? then on == Some((r.value.0, r.value.1 + rest)) else on.Some? && on.value.1 == q
  {
    hide ReadString;
    ReadOn(x, p, q);
  }

  lemma LexOnString(s: string, inner: string, rest: string, p: string, q: string, pattern: bool)
    returns (open: bool, head: seq<Token>)
    requires Opens(rest, p, q) && Quotes(s, inner, pattern)
    ensures Joined(s, rest, q, open, head)
    decreases |s|, 0
  {
    assert |inner| < |s|;
    hide Lex, ReadString, Opens, Quotes, Joined;
    LexQuotes(s, inner, rest, pattern);
    ReadOnRest(inner, rest, p, q);
    var r := ReadString(inner);
    if r.Some? {
      var first := [if pattern then Pattern(r.value.0) else Str(r.value.0)];
      open, head := LexOn(r.value.1, rest, p, q);
      JoinedCons(first, s, r.value.1, rest, q, open, head);
      head := first + head;
    } else {
      var on := ReadString(inner + rest).value;
      open, head := true, [if pattern then Pattern(on.0) else Str(on.0)];
      JoinedOpen(s, rest, q, head);
    }
  }

  lemma JoinedOpen(s: string, rest: string, q: string, head: seq<Token>)
    requires Lex(s) != [] && Lex(s + rest) == head + Lex(q)
    ensures Joined(s, rest, q, true, head)
  {
    hide Lex;
  }

  lemma LexOnChar(s: string, rest: string, p: string, q: string) returns (open: bool, head: seq<Token>)
    requires Opens(rest, p, q)
    requires s != "" && !WordChar(s[0]) && s[0] != '"' && !(s[0] == '#' && |s| > 1 && s[1] == '"')
    ensures Joined(s, rest, q, open, head)
    decreases |s|, 0
  {
    OpensHead(rest, p, q);
    var more := s[1..];
    assert s == [s[0]] + more && s + rest == [s[0]] + (more + rest);
    hide Lex, SkipLine, IsWhitespace, Opens, Joined;
    if s[0] == ';' {
      SkipLineThen(more, rest);
      LexNote(more);
      LexNote(more + rest);
      open, head := LexOn(SkipLine(more), rest, p, q);
      JoinedCons([], s, SkipLine(more), rest, q, open, head);
      head := [] + head;
    } else {
      var x := if IsWhitespace(s[0]) then [] else if s[0] == '(' then [Open] else if s[0] == ')' then [Close]
        else [Bad];
      open, head := LexOn(more, rest, p, q);
      LexHead(s[0], more);
      LexHead(s[0], more + rest);
      JoinedCons(x, s, more, rest, q, open, head);
      head := x + head;
    }
  }
}
