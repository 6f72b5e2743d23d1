/** The quote-aware scanner that decides whether a `-c` payload names an agent. */
module DashC {
  import opened Text

  /** The scanner's three quoting flags. */
  datatype Quoting = Quoting(single: bool, double: bool, escaped: bool)

  const OPEN := Quoting(false, false, false)

  function Next(q: Quoting, c: char): Quoting {
    if q.escaped then q.(escaped := false)
    else if c == '\\' && !q.single then q.(escaped := true)
    else if c == '\'' && !q.double then q.(single := !q.single)
    else if c == '"' && !q.single then q.(double := !q.double)
    else q
  }

  /** The character stands outside every quote and is not itself quoting syntax. */
  predicate Plain(q: Quoting, c: char) {
    q == OPEN && c != '\\' && c != '\'' && c != '"'
  }

  predicate IsSeparator(c: char) {
    c == '|' || c == ';' || c == '&' || c == '('
  }

  predicate IsNameStart(c: char) {
    '0' <= c <= '9' || 'a' <= c <= 'z' || 'A' <= c <= 'Z' || c == '_' || c == '-'
  }

  // ---- The scanner ----

  predicate Marks(q: Quoting, c: char, position: bool) {
    Plain(q, c) && position && c == '@'
  }

  function Position(q: Quoting, c: char, position: bool): bool {
    if !Plain(q, c) || IsWhitespace(c) then position else IsSeparator(c)
  }

  function Scan(s: string, q: Quoting, position: bool): bool
    decreases |s|
  {
    if s == "" then false
    else if Marks(q, s[0], position) then |s| > 1 && IsNameStart(s[1])
    else Scan(s[1..], Next(q, s[0]), Position(q, s[0], position))
  }

  predicate NamesAgent(s: string) {
    Scan(s, OPEN, true)
  }

  method HasUnquotedAgentCommand(cmd: string) returns (r: bool)
    ensures r == NamesAgent(cmd)
  {
    var single, double, escaped, position := false, false, false, true;
    assert cmd[0..] == cmd;
    for i := 0 to |cmd|
      invariant NamesAgent(cmd) == Scan(cmd[i..], Quoting(single, double, escaped), position)
    {
      var c := cmd[i];
      assert cmd[i..][0] == c && cmd[i..][1..] == cmd[i + 1..];
      if escaped {
        escaped := false;
        continue;
      }
      if c == '\\' && !single {
        escaped := true;
        continue;
      }
      if c == '\'' && !double {
        single := !single;
        continue;
      }
      if c == '"' && !single {
        double := !double;
        continue;
      }
      if single || double || IsWhitespace(c) {
        continue;
      }
      if c == '|' || c == ';' || c == '&' || c == '(' {
        position := true;
        continue;
      }
      if position && c == '@' {
        if i + 1 == |cmd| {
          return false;
        }
        var next := cmd[i + 1];
        return '0' <= next <= '9' || 'a' <= next <= 'z' || 'A' <= next <= 'Z' || next == '_' || next == '-';
      }
      position := false;
    }
    r := false;
  }

  // ---- What the answer means ----

  /** The quoting in force in front of `s[i]`. */
  function QuotingAt(s: string, i: nat): Quoting
    requires i <= |s|
  {
    if i == 0 then OPEN else Next(QuotingAt(s, i - 1), s[i - 1])
  }

  predicate PlainAt(s: string, i: int) {
    0 <= i < |s| && Plain(QuotingAt(s, i), s[i])
  }

  predicate Separates(s: string, i: int) {
    PlainAt(s, i) && IsSeparator(s[i])
  }

  predicate InWord(s: string, i: int) {
    PlainAt(s, i) && !IsWhitespace(s[i]) && !IsSeparator(s[i])
  }

  /** Command position: every unquoted word character so far lies behind a later separator. */
  predicate AtCommand(s: string, i: int) {
    forall j :: 0 <= j < i && InWord(s, j) ==> exists k :: j < k < i && Separates(s, k)
  }

  /** An unquoted, unescaped `@` at command position. */
  predicate AgentMark(s: string, i: int) {
    InWord(s, i) && s[i] == '@' && AtCommand(s, i)
  }

  predicate NoMark(s: string, i: int) {
    forall j :: 0 <= j < i ==> !AgentMark(s, j)
  }

  predicate NamedMark(s: string, i: int) {
    AgentMark(s, i) && i + 1 < |s| && IsNameStart(s[i + 1])
  }

  /** One character later, the scanner's flag is still command position. */
  lemma AtCommandStep(s: string, i: nat)
    requires i < |s|
    ensures AtCommand(s, i + 1) == Position(QuotingAt(s, i), s[i], AtCommand(s, i))
  {
    if Separates(s, i) {
      assert AtCommand(s, i + 1);
    } else if InWord(s, i) {
      assert !AtCommand(s, i + 1);
    } else {
      assert forall j :: 0 <= j < i + 1 && InWord(s, j) ==> j < i;
      assert forall k :: 0 <= k < i + 1 && Separates(s, k) ==> k < i;
      assert AtCommand(s, i + 1) ==> AtCommand(s, i);
    }
  }

  lemma {:induction false} ScanFrom(s: string, i: nat)
    requires i <= |s| && NoMark(s, i)
    ensures Scan(s[i..], QuotingAt(s, i), AtCommand(s, i)) <==> exists k :: NamedMark(s, k) && NoMark(s, k)
    decreases |s| - i
  {
    if i < |s| {
      var q, tail := QuotingAt(s, i), s[i..];
      assert tail[0] == s[i] && tail[1..] == s[i + 1..];
      assert AgentMark(s, i) == Marks(q, s[i], AtCommand(s, i));
      if AgentMark(s, i) {
        assert forall k :: NamedMark(s, k) && NoMark(s, k) ==> k == i;
        assert Scan(tail, q, AtCommand(s, i)) == NamedMark(s, i);
      } else {
        AtCommandStep(s, i);
        ScanFrom(s, i + 1);
      }
    }
  }

  /** The first unquoted, unescaped `@` at command position decides alone. */
  lemma FirstMarkDecides(s: string)
    ensures NamesAgent(s) <==> exists k :: NamedMark(s, k) && NoMark(s, k)
  {
    assert s[0..] == s;
    ScanFrom(s, 0);
  }

  /** The answer differs from "some command position starts with an agent name" exactly when a bare mark comes first. */
  lemma AnyAgentIffNotShadowed(s: string)
    ensures (NamesAgent(s) <==> exists k :: NamedMark(s, k)) <==>
      !exists i, k :: AgentMark(s, i) && NoMark(s, i) && !NamedMark(s, i) && NamedMark(s, k)
  {
    FirstMarkDecides(s);
    if k :| NamedMark(s, k) {
      var first := FirstMark(s, k);
    }
  }

  /** A lone `@` hides the agent behind it. */
  lemma BareMarkShadows()
    ensures NamedMark("@|@a", 2) && !NamesAgent("@|@a")
  {
    var s := "@|@a";
    assert Separates(s, 1);
    assert AgentMark(s, 0) && !NamedMark(s, 0);
    FirstMarkDecides(s);
  }

  lemma FirstMark(s: string, k: nat) returns (i: nat)
    requires AgentMark(s, k)
    ensures i <= k && AgentMark(s, i) && NoMark(s, i)
  {
    i := 0;
    while !AgentMark(s, i)
      invariant i <= k && NoMark(s, i)
      decreases k - i
    {
      i := i + 1;
    }
  }

  // ---- Where a command of a list starts ----

  /** The position behind the last unquoted separator in front of `i`. */
  function CommandStart(s: string, i: nat): (k: nat)
    requires i <= |s|
    ensures k <= i && (k > 0 ==> Separates(s, k - 1)) && forall j :: k <= j < i ==> !Separates(s, j)
  {
    if i == 0 then 0 else if Separates(s, i - 1) then i else CommandStart(s, i - 1)
  }

  /** An unquoted character that ends a command of a shell list: one of the scanner's separators, or a newline. */
  predicate EndsCommand(s: string, i: int) {
    PlainAt(s, i) && (IsSeparator(s[i]) || s[i] == '\n')
  }

  /** The position behind the last such character in front of `i`. */
  function ListStart(s: string, i: nat): (k: nat)
    requires i <= |s|
    ensures k <= i && (k > 0 ==> EndsCommand(s, k - 1)) && forall j :: k <= j < i ==> !EndsCommand(s, j)
  {
    if i == 0 then 0 else if EndsCommand(s, i - 1) then i else ListStart(s, i - 1)
  }

  /** Position `i` starts a command of a shell list: nothing but unquoted blanks stands behind the last separator or
      newline. Quoted and escaped characters are part of words. */
  predicate AtListCommand(s: string, i: nat)
    requires i <= |s|
  {
    forall j :: ListStart(s, i) <= j < i ==> PlainAt(s, j) && IsWhitespace(s[j])
  }

  /** The scanner asks for no unquoted word character behind the last separator. */
  lemma AtCommandMeans(s: string, i: nat)
    requires i <= |s|
    ensures AtCommand(s, i) <==> forall j :: CommandStart(s, i) <= j < i ==> !InWord(s, j)
  {
    var k := CommandStart(s, i);
    if forall j :: k <= j < i ==> !InWord(s, j) {
      forall j | 0 <= j < i && InWord(s, j) ensures exists m :: j < m < i && Separates(s, m) {
        assert Separates(s, k - 1) && j != k - 1;
      }
    }
  }

  /** A newline can only move the start of the command forward. */
  lemma StartsOrdered(s: string, i: nat)
    requires i <= |s|
    ensures CommandStart(s, i) <= ListStart(s, i)
  {
    hide QuotingAt, PlainAt, IsSeparator;
    var k := CommandStart(s, i);
    assert k > 0 ==> EndsCommand(s, k - 1);
  }

  lemma PlainInside(s: string)
    ensures forall j :: PlainAt(s, j) ==> 0 <= j < |s|
  {
  }

  /** An unquoted `@` that starts a command of the list is missed exactly when an unquoted word character stands between
      the last separator and the newline in front of it. */
  lemma ScannerMissesIffNewline(s: string, i: nat)
    requires InWord(s, i) && s[i] == '@' && AtListCommand(s, i)
    ensures !AgentMark(s, i) <==> exists j :: CommandStart(s, i) <= j < ListStart(s, i) && InWord(s, j)
  {
    PlainInside(s);
    hide QuotingAt, PlainAt, AtCommand, CommandStart, ListStart, IsWhitespace, IsSeparator;
    AtCommandMeans(s, i);
    StartsOrdered(s, i);
    assert forall j :: ListStart(s, i) <= j < i ==> !InWord(s, j);
  }

  /** An `@` that the scanner takes for the start of a command is none exactly when a quoted or escaped character stands
      between it and the last separator or newline. */
  lemma ScannerErrsIffQuoted(s: string, i: nat)
    requires AgentMark(s, i)
    ensures !AtListCommand(s, i) <==> exists j :: ListStart(s, i) <= j < i && !PlainAt(s, j)
  {
    PlainInside(s);
    hide QuotingAt, PlainAt, AtCommand, CommandStart, ListStart, IsWhitespace, IsSeparator;
    AtCommandMeans(s, i);
    StartsOrdered(s, i);
    var k := ListStart(s, i);
    assert forall j :: k <= j < i && PlainAt(s, j) && !InWord(s, j) ==> IsWhitespace(s[j]) || EndsCommand(s, j);
  }

  /** Characters of a plain, unquoted word. */
  predicate IsWordText(w: string) {
    forall i :: 0 <= i < |w| ==> Plain(OPEN, w[i]) && !IsWhitespace(w[i]) && !IsSeparator(w[i])
  }

  predicate Unseparated(s: string) {
    forall i :: 0 <= i < |s| ==> Plain(OPEN, s[i]) && !IsSeparator(s[i])
  }

  lemma {:induction false} ScanWithoutSeparator(s: string)
    requires Unseparated(s)
    ensures !Scan(s, OPEN, false)
  {
    if s != "" {
      ScanWithoutSeparator(s[1..]);
    }
  }

  lemma {:induction false} UnquotedThroughout(s: string, i: nat)
    requires Unseparated(s) && i <= |s|
    ensures QuotingAt(s, i) == OPEN
  {
    if i > 0 {
      UnquotedThroughout(s, i - 1);
    }
  }

  /** For every plain word and every agent name: a command on the next line names the agent, and the scanner does not
      see it. */
  lemma NewlineHidesAgent(w: string, name: string)
    requires w != "" && IsWordText(w) && w[0] != '@' && name != "" && IsWordText(name) && IsNameStart(name[0])
    ensures var s := w + ("\n@" + name);
            !NamesAgent(s) && InWord(s, |w| + 1) && s[|w| + 1] == '@' && AtListCommand(s, |w| + 1) &&
              s[|w| + 2] == name[0]
  {
    var s, at := w + ("\n@" + name), |w| + 1;
    assert Unseparated(s) by {
      assert forall i :: 0 <= i < |w| ==> s[i] == w[i];
      assert forall i :: 0 <= i < |name| ==> s[|w| + 2 + i] == name[i];
      assert forall i :: |w| + 2 <= i < |s| ==> s[i] == name[i - |w| - 2];
    }
    assert s[0] == w[0] && s[at] == '@' && s[at - 1] == '\n';
    ScanWithoutSeparator(s[1..]);
    UnquotedThroughout(s, at);
    UnquotedThroughout(s, at - 1);
    assert EndsCommand(s, at - 1) && ListStart(s, at) == at;
  }

  /** Behind a quoted word a newline starts a command, and there the scanner is right. */
  lemma QuotedLineIsSeen(quote: char, word: string)
    requires IsQuote(quote) && Inert(word, quote)
    ensures NamesAgent(Region(quote, word) + "\n@a")
  {
    var rest := "\n@a";
    ScanRegion(quote, word, rest);
    assert NamedMark(rest, 1) && NoMark(rest, 1);
    FirstMarkDecides(rest);
  }

  // ---- Quoted text does not matter ----

  /** The quoting after `s`, from any quoting. */
  function After(s: string, q: Quoting): Quoting
    decreases |s|
  {
    if s == "" then q else After(s[1..], Next(q, s[0]))
  }

  lemma {:induction false} AfterIsQuotingAt(s: string, i: nat)
    requires i <= |s|
    ensures After(s[i..], QuotingAt(s, i)) == QuotingAt(s, |s|)
    decreases |s| - i
  {
    if i < |s| {
      assert s[i..][1..] == s[i + 1..];
      AfterIsQuotingAt(s, i + 1);
    }
  }

  /** Text a quoted region may hold: it neither ends the region nor escapes inside it. */
  predicate Inert(body: string, quote: char) {
    forall i :: 0 <= i < |body| ==> body[i] != quote && (quote == '"' ==> body[i] != '\\')
  }

  function Inside(quote: char): Quoting {
    Quoting(quote == '\'', quote == '"', false)
  }

  predicate IsQuote(quote: char) {
    quote == '\'' || quote == '"'
  }

  /** The scanner passes a quoted region and its closing quote without any effect. */
  lemma {:induction false} ScanQuoted(body: string, quote: char, rest: string, position: bool)
    requires IsQuote(quote) && Inert(body, quote)
    ensures Scan(body + ([quote] + rest), Inside(quote), position) == Scan(rest, OPEN, position)
    decreases |body|
  {
    var s := body + ([quote] + rest);
    if body == "" {
      assert s == [quote] + rest && s[1..] == rest;
    } else {
      assert s[1..] == body[1..] + ([quote] + rest);
      ScanQuoted(body[1..], quote, rest, position);
    }
  }

  /** `[quote] + body + [quote]`, as it stands in a command line. */
  function Region(quote: char, body: string): string {
    [quote] + (body + [quote])
  }

  predicate ScanAlike(a: string, b: string, q: Quoting) {
    Scan(a, q, true) == Scan(b, q, true) && Scan(a, q, false) == Scan(b, q, false)
  }

  lemma ScanRegion(quote: char, body: string, rest: string)
    requires IsQuote(quote) && Inert(body, quote)
    ensures ScanAlike(Region(quote, body) + rest, rest, OPEN)
  {
    var s := Region(quote, body) + rest;
    assert s[1..] == body + ([quote] + rest);
    ScanQuoted(body, quote, rest, true);
    ScanQuoted(body, quote, rest, false);
  }

  /** Two continuations that scan alike scan alike behind any prefix, unless its last `@` looks into them. */
  lemma {:induction false} ScanBehind(p: string, a: string, b: string, q: Quoting, position: bool)
    requires ScanAlike(a, b, After(p, q))
    requires (a != "" && b != "" && a[0] == b[0]) || (p != "" ==> p[|p| - 1] != '@')
    ensures Scan(p + a, q, position) == Scan(p + b, q, position)
    decreases |p|
  {
    if p == "" {
      assert p + a == a && p + b == b;
    } else {
      assert (p + a)[1..] == p[1..] + a && (p + b)[1..] == p[1..] + b;
      if !Marks(q, p[0], position) {
        ScanBehind(p[1..], a, b, Next(q, p[0]), Position(q, p[0], position));
      }
    }
  }

  /** The contents of a quoted region can be replaced without changing the answer. */
  lemma QuotedContentsIrrelevant(prefix: string, quote: char, body: string, body': string, suffix: string)
    requires QuotingAt(prefix, |prefix|) == OPEN && IsQuote(quote) && Inert(body, quote) && Inert(body', quote)
    ensures NamesAgent(prefix + (Region(quote, body) + suffix)) == NamesAgent(prefix + (Region(quote, body') + suffix))
  {
    assert prefix[0..] == prefix;
    AfterIsQuotingAt(prefix, 0);
    ScanRegion(quote, body, suffix);
    ScanRegion(quote, body', suffix);
    ScanBehind(prefix, Region(quote, body) + suffix, Region(quote, body') + suffix, OPEN, true);
  }

  /** A quoted region can even be dropped, so a quoted word does not end command position. */
  lemma QuotedRegionInvisible(prefix: string, quote: char, body: string, suffix: string)
    requires QuotingAt(prefix, |prefix|) == OPEN && IsQuote(quote) && Inert(body, quote)
    requires prefix != "" ==> prefix[|prefix| - 1] != '@'
    ensures NamesAgent(prefix + (Region(quote, body) + suffix)) == NamesAgent(prefix + suffix)
  {
    assert prefix[0..] == prefix;
    AfterIsQuotingAt(prefix, 0);
    ScanRegion(quote, body, suffix);
    ScanBehind(prefix, Region(quote, body) + suffix, suffix, OPEN, true);
  }

  /** A quoted command name leaves its first argument at command position; an unquoted one does not. */
  lemma QuotedCommandKeepsPosition(quote: char, name: string)
    requires IsQuote(quote) && Inert(name, quote)
    ensures NamesAgent(Region(quote, name) + " @a") && !NamesAgent("b @a")
  {
    var arg, bare := " @a", "b @a";
    ScanRegion(quote, name, arg);
    assert NamedMark(arg, 1) && NoMark(arg, 1);
    FirstMarkDecides(arg);
    assert InWord(bare, 0);
    assert forall k :: NamedMark(bare, k) ==> k == 2;
    FirstMarkDecides(bare);
  }

  // ---- The routing decision ----

  predicate StartsWithBuiltin(s: string) {
    s == "orkia" || "orkia " <= s
  }

  predicate Routed(cmd: string) {
    StartsWithBuiltin(TrimStart(cmd)) || NamesAgent(cmd)
  }

  method NeedsReplPipeline(cmd: string) returns (r: bool)
    ensures r == Routed(cmd)
  {
    var trimmed := TrimStart(cmd);
    TrimKeepsAnswer(cmd, SkipLeft(cmd, 0));
    if trimmed == "orkia" || "orkia " <= trimmed {
      return true;
    }
    r := HasUnquotedAgentCommand(trimmed);
  }

  /** Leading whitespace does not change the answer. */
  lemma {:induction false} TrimKeepsAnswer(s: string, n: nat)
    requires n <= |s| && White(s, 0, n)
    ensures NamesAgent(s[n..]) == NamesAgent(s)
  {
    if n > 0 {
      TrimKeepsAnswer(s, n - 1);
      assert s[n - 1..][1..] == s[n..];
    } else {
      assert s[0..] == s;
    }
  }

  /** Only the text up to the first quote can be the builtin's name. */
  lemma BuiltinInPrefix(prefix: string, quote: char, a: string, b: string)
    requires IsQuote(quote)
    ensures StartsWithBuiltin(TrimStart(prefix + ([quote] + a))) == StartsWithBuiltin(TrimStart(prefix + ([quote] + b)))
  {
    var x, y := prefix + ([quote] + a), prefix + ([quote] + b);
    assert forall i :: 0 <= i <= |prefix| ==> x[i] == y[i];
    assert !IsWhitespace(x[|prefix|]);
    var n := SkipLeft(x, 0);
    assert n == SkipLeft(y, 0);
    var s, t, at := x[n..], y[n..], |prefix| - n;
    assert s[at] == quote && t[at] == quote;
    assert at < 6 ==> "orkia "[at] != quote;
    assert at < 5 ==> "orkia"[at] != quote;
    assert at >= 6 ==> s[..6] == t[..6];
  }

  /** The contents of a quoted region never change where the payload is routed. */
  lemma RoutingIgnoresQuotedContents(prefix: string, quote: char, body: string, body': string, suffix: string)
    requires QuotingAt(prefix, |prefix|) == OPEN && IsQuote(quote) && Inert(body, quote) && Inert(body', quote)
    ensures Routed(prefix + (Region(quote, body) + suffix)) == Routed(prefix + (Region(quote, body') + suffix))
  {
    hide NamesAgent, StartsWithBuiltin, TrimStart, QuotingAt;
    QuotedContentsIrrelevant(prefix, quote, body, body', suffix);
    assert Region(quote, body) + suffix == [quote] + (body + [quote] + suffix);
    assert Region(quote, body') + suffix == [quote] + (body' + [quote] + suffix);
    BuiltinInPrefix(prefix, quote, body + [quote] + suffix, body' + [quote] + suffix);
  }
}
