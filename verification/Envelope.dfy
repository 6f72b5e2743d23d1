/** Recovering the command from a `-c` payload that wraps it in `eval '...'`. */
module Envelope {
  import opened Wrappers
  import opened Text
  import opened ShellQuote

  const EVAL_MARKER := "eval '"
  const ESCAPED_QUOTE := "'\\''"

  datatype Extracted = Command(text: string) | Unparseable

  /** The single-quoted text that starts `rest`, decoded up to its closing quote. */
  function Unquoted(rest: string): Option<string>
    decreases |rest|
  {
    if rest == "" then None
    else if ESCAPED_QUOTE <= rest then
      match Unquoted(rest[4..])
      case None => None
      case Some(more) => Some(['\''] + more)
    else if rest[0] == '\'' then Some("")
    else
      match Unquoted(rest[1..])
      case None => None
      case Some(more) => Some([rest[0]] + more)
  }

  function Prepend(out: string, r: Option<string>): Option<string> {
    match r
    case None => None
    case Some(more) => Some(out + more)
  }

  lemma UnquotedEnd()
    ensures Unquoted("") == None
  {
  }

  lemma UnquotedStop(rest: string)
    requires rest != "" && rest[0] == '\'' && !(ESCAPED_QUOTE <= rest)
    ensures Unquoted(rest) == Some("")
  {
  }

  lemma SameHead(p: string, s: string)
    requires p != "" && s != "" && p[0] != s[0]
    ensures !(p <= s)
  {
  }

  lemma UnquotedChar(c: char, rest: string)
    requires c != '\''
    ensures Unquoted([c] + rest) == Prepend([c], Unquoted(rest))
  {
    var s := [c] + rest;
    assert s[0] == c && s[1..] == rest;
    assert ESCAPED_QUOTE[0] == '\'';
    SameHead(ESCAPED_QUOTE, s);
  }

  lemma UnquotedQuote(rest: string)
    ensures Unquoted(ESCAPED_QUOTE + rest) == Prepend(['\''], Unquoted(rest))
  {
    assert (ESCAPED_QUOTE + rest)[4..] == rest;
  }

  lemma PrependTwice(a: string, b: string, r: Option<string>)
    ensures Prepend(a, Prepend(b, r)) == Prepend(a + b, r)
  {
    assert r.Some? ==> a + (b + r.value) == (a + b) + r.value;
  }

  /** The reader's loop: one character or one escaped quote at a time. */
  method UnwrapEval(raw: string) returns (r: Option<string>)
    ensures r == match Find(raw, EVAL_MARKER) case None => None case Some(at) => Unquoted(raw[at + |EVAL_MARKER|..])
  {
    var found := Find(raw, EVAL_MARKER);
    if found.None? {
      return None;
    }
    var rest := raw[found.value + |EVAL_MARKER|..];
    var out, i := "", 0;
    assert rest[0..] == rest;
    assert forall more: string :: "" + more == more;
    hide Unquoted;
    UnquotedEnd();
    while i < |rest|
      invariant i <= |rest|
      invariant Unquoted(rest) == Prepend(out, Unquoted(rest[i..]))
    {
      if rest[i] == '\'' {
        if ESCAPED_QUOTE <= rest[i..] {
          assert rest[i..] == ESCAPED_QUOTE + rest[i + 4..];
          UnquotedQuote(rest[i + 4..]);
          PrependTwice(out, ['\''], Unquoted(rest[i + 4..]));
          out := out + ['\''];
          i := i + 4;
        } else {
          UnquotedStop(rest[i..]);
          assert out + "" == out;
          return Some(out);
        }
      } else {
        assert rest[i..] == [rest[i]] + rest[i + 1..];
        UnquotedChar(rest[i], rest[i + 1..]);
        PrependTwice(out, [rest[i]], Unquoted(rest[i + 1..]));
        out := out + [rest[i]];
        i := i + 1;
      }
    }
    r := None;
  }

  function Extract(raw: string): Extracted {
    match Find(raw, EVAL_MARKER)
    case None => Command(Trim(raw))
    case Some(at) =>
      match Unquoted(raw[at + |EVAL_MARKER|..])
      case None => Unparseable
      case Some(inner) => Command(inner)
  }

  method ExtractCommand(raw: string) returns (r: Extracted)
    ensures r == Extract(raw)
  {
    if Contains(raw, EVAL_MARKER) {
      var inner := UnwrapEval(raw);
      r := if inner.Some? then Command(inner.value) else Unparseable;
    } else {
      r := Command(Trim(raw));
    }
  }

  // ---- The reader inverts the escaping of the shell printer ----

  /** Decoding escaped text and its closing quote gives the text, then whatever a continuation adds. */
  lemma {:induction false} UnquotedEscaped(c: string, suffix: string)
    ensures Unquoted(EscapeQuotes(c) + ("'" + suffix)) == Prepend(c, Unquoted("'" + suffix))
  {
    hide Unquoted;
    var tail := "'" + suffix;
    if c == "" {
      assert EscapeQuotes(c) + tail == tail;
      assert forall more: string :: "" + more == more;
    } else {
      var rest := EscapeQuotes(c[1..]) + tail;
      UnquotedEscaped(c[1..], suffix);
      PrependTwice([c[0]], c[1..], Unquoted(tail));
      assert [c[0]] + c[1..] == c;
      if c[0] == '\'' {
        assert EscapeQuotes(c) + tail == ESCAPED_QUOTE + rest;
        UnquotedQuote(rest);
      } else {
        assert EscapeQuotes(c) + tail == [c[0]] + rest;
        UnquotedChar(c[0], rest);
      }
    }
  }

  /** A quote and what follows it read as an escaped quote exactly when what follows is the rest of one. */
  lemma EscapedHead(suffix: string)
    ensures ESCAPED_QUOTE <= "'" + suffix <==> "\\''" <= suffix
  {
    if |suffix| >= 3 {
      var three, escaped := suffix[..3], "\\''";
      assert ("'" + suffix)[..4] == "'" + three && ESCAPED_QUOTE == "'" + escaped;
      assert ("'" + three)[1..] == three && ("'" + escaped)[1..] == escaped;
    }
  }

  /** The closing quote ends the text exactly when what follows does not turn it into an escaped quote. */
  lemma ClosingQuote(suffix: string)
    ensures Unquoted("'" + suffix) == Some("") <==> !("\\''" <= suffix)
  {
    EscapedHead(suffix);
    assert ("'" + suffix)[0] == '\'';
    assert forall more: string :: |['\''] + more| > 0;
  }

  lemma MarkerHead()
    ensures UniqueHead(EVAL_MARKER) && |EVAL_MARKER| == 6
  {
  }

  /** Behind a prefix without the marker, any command is recovered from its envelope exactly when the suffix does not
      reopen the quote. */
  lemma ExtractInvertsQuoting(prefix: string, c: string, suffix: string)
    requires !Contains(prefix, "eval '")
    ensures Extract(prefix + ("eval '" + (EscapeQuotes(c) + ("'" + suffix)))) == Command(c) <==> !("\\''" <= suffix)
  {
    var quoted := EscapeQuotes(c) + ("'" + suffix);
    var raw := prefix + (EVAL_MARKER + quoted);
    MarkerHead();
    FindAfter(prefix, EVAL_MARKER, quoted);
    assert raw[|prefix| + |EVAL_MARKER|..] == quoted;
    UnquotedEscaped(c, suffix);
    ClosingQuote(suffix);
    var end := Unquoted("'" + suffix);
    assert end.Some? ==> (c + end.value == c <==> end.value == "") by {
      assert end.Some? ==> |c + end.value| == |c| + |end.value|;
      assert c + "" == c;
    }
  }
}
