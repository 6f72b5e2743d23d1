/** The chain as a file of lines: what appending, reading and verifying do to its text when a write is cut short. */
module SealFile {
  import opened Wrappers
  import opened Text
  import opened Seal

  /** The JSON encoder and decoder of one record. */
  datatype Codec = Codec(encode: Record -> string, decode: string -> Option<Record>)

  /** What JSON gives: one non-blank line per record that decodes to it, while a cut line and a line with text behind a
      record do not decode. */
  ghost predicate Faithful(c: Codec) {
    (forall r :: c.encode(r) != "" && !IsWhitespace(c.encode(r)[0]) && '\n' !in c.encode(r)) &&
    (forall r :: c.decode(c.encode(r)) == Some(r)) &&
    (forall r, k :: 0 < k < |c.encode(r)| ==> c.decode(c.encode(r)[..k]) == None) &&
    (forall r, s :: s != "" && !IsWhitespace(s[0]) ==> c.decode(c.encode(r) + s) == None)
  }

  // ---- Reading ----

  function LineEnd(s: string): (k: nat)
    ensures k <= |s| && '\n' !in s[..k] && (k < |s| ==> s[k] == '\n')
  {
    if s == "" || s[0] == '\n' then 0
    else
      var k := LineEnd(s[1..]);
      assert s[..k + 1] == [s[0]] + s[1..][..k];
      k + 1
  }

  /** `str::lines`. */
  function Lines(s: string): seq<string>
    decreases |s|
  {
    if s == "" then []
    else
      var k := LineEnd(s);
      [s[..k]] + (if k < |s| then Lines(s[k + 1..]) else [])
  }

  /** The records of the non-blank lines, or None if one of them does not decode. */
  function DecodeAll(c: Codec, lines: seq<string>): Option<seq<Record>> {
    if lines == [] then Some([])
    else if Blank(lines[0]) then DecodeAll(c, lines[1..])
    else
      match c.decode(lines[0])
      case None => None
      case Some(r) =>
        match DecodeAll(c, lines[1..])
        case None => None
        case Some(more) => Some([r] + more)
  }

  function LastSolid(lines: seq<string>): Option<string> {
    if lines == [] then None
    else if Blank(lines[|lines| - 1]) then LastSolid(lines[..|lines| - 1])
    else Some(lines[|lines| - 1])
  }

  function Records(c: Codec, text: string): Result<seq<Record>> {
    if |text| > CAP then Err("chain exceeds the cap")
    else
      match DecodeAll(c, Lines(text))
      case None => Err("unparseable record")
      case Some(records) => Ok(records)
  }

  /** The hash the next record must point at. */
  function TipOf(c: Codec, h: Hasher, text: string): Result<string> {
    if |text| > CAP then Err("chain exceeds the cap")
    else
      match LastSolid(Lines(text))
      case None => Ok(h.genesis)
      case Some(line) =>
        match c.decode(line)
        case None => Err("unparseable tip")
        case Some(r) => Ok(r.hash)
  }

  /** `verify`: an error, or whether every link is intact. */
  function VerifyText(c: Codec, h: Hasher, text: string): Result<bool> {
    match Records(c, text)
    case Err(e) => Err(e)
    case Ok(records) => Ok(Verifies(h, records))
  }

  // ---- What the text can look like ----

  function Rendered(c: Codec, recs: seq<Record>): string {
    if recs == [] then "" else (c.encode(recs[0]) + "\n") + Rendered(c, recs[1..])
  }

  ghost predicate Unreadable(c: Codec, line: string) {
    line != "" && !IsWhitespace(line[0]) && '\n' !in line && c.decode(line) == None
  }

  ghost predicate EndsBroken(c: Codec, text: string, recs: seq<Record>, bad: string, ended: bool) {
    Unreadable(c, bad) && text == Rendered(c, recs) + (bad + (if ended then "\n" else ""))
  }

  ghost predicate Shows(c: Codec, text: string, v: View) {
    match v
    case Whole(recs) => text == Rendered(c, recs)
    case Unended(recs) => recs != [] && text == Rendered(c, recs[..|recs| - 1]) + c.encode(recs[|recs| - 1])
    case Broken => exists recs, bad, ended :: EndsBroken(c, text, recs, bad, ended)
  }

  // ---- Reading what a view shows ----

  lemma LineEndAt(line: string, rest: string)
    requires '\n' !in line
    ensures LineEnd(line + ("\n" + rest)) == |line|
  {
    var s := line + ("\n" + rest);
    var k := LineEnd(s);
    assert s[|line|] == '\n';
    assert forall i :: 0 <= i < k ==> s[i] == s[..k][i] && s[i] != '\n';
    assert forall i :: 0 <= i < |line| ==> s[i] == line[i];
  }

  lemma LinesCons(line: string, rest: string)
    requires '\n' !in line
    ensures Lines(line + ("\n" + rest)) == [line] + Lines(rest)
  {
    LineEndAt(line, rest);
    var s := line + ("\n" + rest);
    assert s[..|line|] == line && s[|line| + 1..] == rest;
  }

  lemma LinesLast(line: string)
    requires '\n' !in line && line != ""
    ensures Lines(line) == [line]
  {
    var k := LineEnd(line);
    assert line[..|line|] == line;
  }

  function Encoded(c: Codec, recs: seq<Record>): seq<string> {
    if recs == [] then [] else [c.encode(recs[0])] + Encoded(c, recs[1..])
  }

  lemma {:induction false} LinesRendered(c: Codec, recs: seq<Record>, tail: string)
    requires Faithful(c)
    ensures Lines(Rendered(c, recs) + tail) == Encoded(c, recs) + Lines(tail)
  {
    hide Lines;
    if recs == [] {
      assert Rendered(c, recs) + tail == tail;
    } else {
      var line, rest := c.encode(recs[0]), Rendered(c, recs[1..]) + tail;
      assert '\n' !in line;
      hide Faithful;
      assert Rendered(c, recs) + tail == line + ("\n" + rest);
      LinesCons(line, rest);
      LinesRendered(c, recs[1..], tail);
    }
  }

  function Onto(recs: seq<Record>, r: Option<seq<Record>>): Option<seq<Record>> {
    match r
    case None => None
    case Some(rs) => Some(recs + rs)
  }

  lemma DecodeCons(c: Codec, r: Record, lines: seq<string>)
    requires Faithful(c)
    ensures DecodeAll(c, [c.encode(r)] + lines) == Onto([r], DecodeAll(c, lines))
  {
    var all := [c.encode(r)] + lines;
    assert all[0] == c.encode(r) && all[1..] == lines;
    assert !Blank(all[0]);
  }

  lemma OntoTwice(r: Record, recs: seq<Record>, o: Option<seq<Record>>)
    ensures Onto([r], Onto(recs, o)) == Onto([r] + recs, o)
  {
    assert o.Some? ==> [r] + (recs + o.value) == ([r] + recs) + o.value;
  }

  lemma {:induction false} DecodeEncoded(c: Codec, recs: seq<Record>, more: seq<string>)
    requires Faithful(c)
    ensures DecodeAll(c, Encoded(c, recs) + more) == Onto(recs, DecodeAll(c, more))
  {
    hide Faithful, DecodeAll;
    if recs == [] {
      assert Encoded(c, recs) + more == more;
      assert forall rs: seq<Record> :: recs + rs == rs;
    } else {
      var rest := Encoded(c, recs[1..]) + more;
      assert Encoded(c, recs) + more == [c.encode(recs[0])] + rest;
      DecodeEncoded(c, recs[1..], more);
      DecodeCons(c, recs[0], rest);
      OntoTwice(recs[0], recs[1..], DecodeAll(c, more));
      assert [recs[0]] + recs[1..] == recs;
    }
  }

  lemma {:induction false} EncodedSnoc(c: Codec, recs: seq<Record>)
    requires recs != []
    ensures Encoded(c, recs) == Encoded(c, recs[..|recs| - 1]) + [c.encode(recs[|recs| - 1])]
  {
    if |recs| > 1 {
      EncodedSnoc(c, recs[1..]);
      assert recs[1..][..|recs| - 2] == recs[..|recs| - 1][1..];
    }
  }

  lemma {:induction false} RenderedSnoc(c: Codec, recs: seq<Record>, r: Record)
    ensures Rendered(c, recs + [r]) == Rendered(c, recs) + (c.encode(r) + "\n")
  {
    if recs == [] {
      assert recs + [r] == [r] && [r][1..] == [];
    } else {
      RenderedSnoc(c, recs[1..], r);
      assert (recs + [r])[1..] == recs[1..] + [r];
    }
  }

  /** The lines a view shows. */
  lemma ViewLines(c: Codec, text: string, v: View)
    requires Faithful(c) && Shows(c, text, v)
    ensures !v.Broken? ==> Lines(text) == Encoded(c, v.recs)
    ensures v.Broken? ==> exists recs, bad :: Unreadable(c, bad) && Lines(text) == Encoded(c, recs) + [bad]
  {
    match v {
      case Whole(recs) =>
        LinesRendered(c, recs, "");
        assert Rendered(c, recs) + "" == text && Encoded(c, recs) + [] == Encoded(c, recs);
      case Unended(recs) =>
        var line := c.encode(recs[|recs| - 1]);
        LinesRendered(c, recs[..|recs| - 1], line);
        LinesLast(line);
        EncodedSnoc(c, recs);
      case Broken =>
        var recs, bad, ended :| EndsBroken(c, text, recs, bad, ended);
        var tail := bad + (if ended then "\n" else "");
        LinesRendered(c, recs, tail);
        if ended {
          assert tail == bad + ("\n" + "");
          LinesCons(bad, "");
        } else {
          assert tail == bad;
          LinesLast(bad);
        }
        assert [bad] + [] == [bad];
    }
  }

  lemma DecodeOne(c: Codec, bad: string)
    requires Unreadable(c, bad)
    ensures DecodeAll(c, [bad]) == None
  {
    assert !Blank(bad);
  }

  lemma BrokenLines(c: Codec, recs: seq<Record>, bad: string)
    requires Faithful(c) && Unreadable(c, bad)
    ensures DecodeAll(c, Encoded(c, recs) + [bad]) == None && LastSolid(Encoded(c, recs) + [bad]) == Some(bad) &&
      c.decode(bad) == None
  {
    hide Faithful, DecodeAll, Encoded, LastSolid;
    DecodeOne(c, bad);
    DecodeEncoded(c, recs, [bad]);
    LastSolidSnoc(Encoded(c, recs), bad);
  }

  lemma WholeLines(c: Codec, recs: seq<Record>)
    requires Faithful(c)
    ensures DecodeAll(c, Encoded(c, recs)) == Some(recs)
    ensures recs == [] ==> LastSolid(Encoded(c, recs)) == None
    ensures recs != [] ==>
      var last := recs[|recs| - 1];
      LastSolid(Encoded(c, recs)) == Some(c.encode(last)) && c.decode(c.encode(last)) == Some(last)
  {
    assert DecodeAll(c, []) == Some([]);
    DecodeEncoded(c, recs, []);
    assert Encoded(c, recs) + [] == Encoded(c, recs) && recs + [] == recs;
    if recs != [] {
      EncodedSnoc(c, recs);
      hide DecodeAll, Encoded, LastSolid;
      LastSolidSnoc(Encoded(c, recs[..|recs| - 1]), c.encode(recs[|recs| - 1]));
    }
  }

  /** Reading gives exactly the records of a readable view, and fails on a broken one. */
  lemma ReadingView(c: Codec, h: Hasher, text: string, v: View)
    requires Faithful(c) && Shows(c, text, v) && |text| <= CAP
    ensures !v.Broken? ==> Records(c, text) == Ok(v.recs) && TipOf(c, h, text) == Ok(Tip(h, v.recs))
    ensures v.Broken? ==> Records(c, text).Err? && TipOf(c, h, text).Err?
  {
    hide Faithful, Lines, Shows, DecodeAll, Encoded, LastSolid;
    ViewLines(c, text, v);
    if v.Broken? {
      var recs, bad :| Unreadable(c, bad) && Lines(text) == Encoded(c, recs) + [bad];
      BrokenLines(c, recs, bad);
    } else {
      WholeLines(c, v.recs);
    }
  }

  lemma LastSolidSnoc(lines: seq<string>, line: string)
    requires line != "" && !IsWhitespace(line[0])
    ensures LastSolid(lines + [line]) == Some(line)
  {
  }

  // ---- Appending ----

  /** One seal operation: the record it seals, how many characters of its line reach the file, and whether fsync
      succeeds. */
  datatype Op = Op(draft: Record, written: nat, synced: bool)

  function Line(c: Codec, r: Record): string {
    c.encode(r) + "\n"
  }

  /** The record an operation seals onto a tip. */
  function Made(h: Hasher, op: Op, tip: string): Record {
    Sealed(h, op.draft.(prevHash := tip))
  }

  function Cut(s: string, n: nat): string {
    if n < |s| then s[..n] else s
  }

  function AfterOp(c: Codec, h: Hasher, text: string, op: Op): (string, Result<string>) {
    match TipOf(c, h, text)
    case Err(e) => (text, Err(e))
    case Ok(tip) =>
      var line := Line(c, Made(h, op, tip));
      (text + Cut(line, op.written),
       if op.written >= |line| && op.synced then Ok(Made(h, op, tip).hash) else Err("append failed"))
  }

  lemma CutIsUnreadable(c: Codec, r: Record, n: nat)
    requires Faithful(c) && 0 < n < |c.encode(r)|
    ensures Unreadable(c, c.encode(r)[..n]) && Cut(Line(c, r), n) == c.encode(r)[..n]
  {
    var bad := c.encode(r)[..n];
    assert bad[0] == c.encode(r)[0];
  }

  lemma CutOntoWhole(c: Codec, recs: seq<Record>, r: Record, n: nat)
    requires Faithful(c)
    ensures Shows(c, Rendered(c, recs) + Cut(Line(c, r), n), Next(Whole(recs), r, Reached(n, |c.encode(r)|)))
  {
    var line, code, text := Line(c, r), c.encode(r), Rendered(c, recs);
    if n == 0 {
      assert text + line[..0] == text;
    } else if n < |code| {
      hide Faithful, Cut, Line, Unreadable, Rendered;
      CutIsUnreadable(c, r, n);
      assert code[..n] + "" == code[..n];
      assert EndsBroken(c, text + code[..n], recs, code[..n], false);
    } else if n == |code| {
      assert Cut(line, n) == code && (recs + [r])[..|recs|] == recs;
    } else {
      assert Cut(line, n) == line;
      RenderedSnoc(c, recs, r);
    }
  }

  /** A record with the start of another behind it is no record. */
  lemma JoinedIsUnreadable(c: Codec, first: Record, r: Record, n: nat)
    requires Faithful(c) && n > 0
    ensures Unreadable(c, c.encode(first) + Cut(c.encode(r), n))
  {
    var last, code := c.encode(first), c.encode(r);
    var piece := Cut(code, n);
    assert piece != "" && piece[0] == code[0] && '\n' !in piece;
    assert (last + piece)[0] == last[0];
  }

  lemma CutLine(c: Codec, r: Record, n: nat)
    ensures Cut(Line(c, r), n) == Cut(c.encode(r), n) + (if n > |c.encode(r)| then "\n" else "")
  {
  }

  lemma CutOntoUnended(c: Codec, recs: seq<Record>, r: Record, n: nat)
    requires Faithful(c) && recs != [] && n > 0
    ensures Shows(c, Rendered(c, recs[..|recs| - 1]) + c.encode(recs[|recs| - 1]) + Cut(Line(c, r), n), Broken)
  {
    hide Faithful, Unreadable, Rendered, Cut, Line;
    var before, last := recs[..|recs| - 1], c.encode(recs[|recs| - 1]);
    JoinedIsUnreadable(c, recs[|recs| - 1], r, n);
    CutLine(c, r, n);
    var head, piece, ended := Rendered(c, before), Cut(c.encode(r), n), n > |c.encode(r)|;
    var end := if ended then "\n" else "";
    assert head + last + (piece + end) == head + ((last + piece) + end);
    assert EndsBroken(c, head + last + (piece + end), before, last + piece, ended);
  }

  /** Every operation, cut anywhere, acts on the file as `Next` acts on its view. */
  lemma OpRefinesNext(c: Codec, h: Hasher, text: string, v: View, op: Op)
    requires Faithful(c) && Shows(c, text, v)
    ensures |text| > CAP || v.Broken? ==> AfterOp(c, h, text, op).0 == text && AfterOp(c, h, text, op).1.Err?
    ensures |text| <= CAP && !v.Broken? ==>
              var r := Made(h, op, Tip(h, v.recs));
              Shows(c, AfterOp(c, h, text, op).0, Next(v, r, Reached(op.written, |c.encode(r)|))) &&
              (AfterOp(c, h, text, op).1.Ok? <==> op.written > |c.encode(r)| && op.synced)
  {
    if |text| <= CAP {
      ReadingView(c, h, text, v);
      if !v.Broken? {
        var r := Made(h, op, Tip(h, v.recs));
        if v.Whole? {
          CutOntoWhole(c, v.recs, r, op.written);
        } else if op.written > 0 {
          CutOntoUnended(c, v.recs, r, op.written);
        } else {
          assert text + Cut(Line(c, r), 0) == text;
        }
      }
    }
  }

  // ---- Whole histories ----

  /** A file this chain can have reached: its readable records verify. */
  ghost predicate Reachable(c: Codec, h: Hasher, text: string, v: View) {
    Shows(c, text, v) && (!v.Broken? ==> Verifies(h, v.recs))
  }

  function RunOps(c: Codec, h: Hasher, text: string, ops: seq<Op>): string
    decreases |ops|
  {
    if ops == [] then text else RunOps(c, h, AfterOp(c, h, text, ops[0]).0, ops[1..])
  }

  lemma OpKeepsReachable(c: Codec, h: Hasher, text: string, v: View, op: Op) returns (v': View)
    requires Faithful(c) && IgnoresHash(h) && Reachable(c, h, text, v)
    ensures Reachable(c, h, AfterOp(c, h, text, op).0, v')
    ensures !v'.Broken? ==> !v.Broken? && v.recs <= v'.recs
    ensures |text| <= CAP && !v.Broken? ==>
              v' == Next(v, Made(h, op, Tip(h, v.recs)), Reached(op.written, |c.encode(Made(h, op, Tip(h, v.recs)))|))
  {
    OpRefinesNext(c, h, text, v, op);
    if |text| > CAP || v.Broken? {
      v' := v;
    } else {
      var r := Made(h, op, Tip(h, v.recs));
      v' := Next(v, r, Reached(op.written, |c.encode(r)|));
      SealedFollows(h, v.recs, op.draft.(prevHash := Tip(h, v.recs)));
      AppendKeepsVerified(h, v.recs, r);
    }
  }

  /** Any mix of operations, each cut anywhere, leaves a reachable file, and while it is readable its records only grow.
      */
  lemma {:induction false} HistoryKeepsReachable(c: Codec, h: Hasher, text: string, v: View, ops: seq<Op>)
    returns (v': View)
    requires Faithful(c) && IgnoresHash(h) && Reachable(c, h, text, v)
    ensures Reachable(c, h, RunOps(c, h, text, ops), v')
    ensures !v'.Broken? ==> !v.Broken? && v.recs <= v'.recs
    decreases |ops|
  {
    if ops == [] {
      v' := v;
    } else {
      var mid := OpKeepsReachable(c, h, text, v, ops[0]);
      v' := HistoryKeepsReachable(c, h, AfterOp(c, h, text, ops[0]).0, mid, ops[1..]);
    }
  }

  /** The verifier never contradicts the writer: on a reachable file it says yes exactly when the file is readable, and
      otherwise it reports an error. It never says no. */
  lemma VerifyReachable(c: Codec, h: Hasher, text: string, v: View)
    requires Faithful(c) && Reachable(c, h, text, v)
    ensures VerifyText(c, h, text) == Ok(true) <==> !v.Broken? && |text| <= CAP
    ensures v.Broken? || |text| > CAP ==> VerifyText(c, h, text).Err?
  {
    if |text| <= CAP {
      ReadingView(c, h, text, v);
    }
  }

  predicate EndsLine(text: string) {
    text == "" || text[|text| - 1] == '\n'
  }

  lemma {:induction false} RenderedEndsLine(c: Codec, recs: seq<Record>)
    ensures EndsLine(Rendered(c, recs))
  {
    if recs != [] {
      RenderedEndsLine(c, recs[1..]);
    }
  }

  lemma ViewEndsLine(c: Codec, text: string, v: View)
    requires Faithful(c) && Shows(c, text, v) && !v.Broken?
    ensures EndsLine(text) <==> v.Whole?
  {
    match v {
      case Whole(recs) => RenderedEndsLine(c, recs);
      case Unended(recs) => assert text[|text| - 1] in c.encode(recs[|recs| - 1]);
    }
  }

  /** A successful operation has put its record on a chain that reads and verifies exactly when the file ended with a
      newline before it and does not outgrow the cap. */
  lemma SuccessIsReadableIffLineEnded(c: Codec, h: Hasher, text: string, v: View, op: Op)
    requires Faithful(c) && IgnoresHash(h) && Reachable(c, h, text, v) && AfterOp(c, h, text, op).1.Ok?
    ensures !v.Broken?
    ensures VerifyText(c, h, AfterOp(c, h, text, op).0) == Ok(true)
       <==> EndsLine(text) && |AfterOp(c, h, text, op).0| <= CAP
    ensures VerifyText(c, h, AfterOp(c, h, text, op).0) == Ok(true) ==>
              Records(c, AfterOp(c, h, text, op).0) == Ok(v.recs + [Made(h, op, Tip(h, v.recs))]) &&
              TipOf(c, h, AfterOp(c, h, text, op).0) == AfterOp(c, h, text, op).1
  {
    hide AfterOp, VerifyText, Records, TipOf, Shows, Faithful, EndsLine, Verifies;
    OpRefinesNext(c, h, text, v, op);
    var r := Made(h, op, Tip(h, v.recs));
    var after, v' := AfterOp(c, h, text, op).0, Next(v, r, Reached(op.written, |c.encode(r)|));
    OpResult(c, h, text, v, op);
    SealedFollows(h, v.recs, op.draft.(prevHash := Tip(h, v.recs)));
    AppendKeepsVerified(h, v.recs, r);
    VerifyReachable(c, h, after, v');
    ViewEndsLine(c, text, v);
    if |after| <= CAP {
      ReadingView(c, h, after, v');
    }
  }

  lemma OpResult(c: Codec, h: Hasher, text: string, v: View, op: Op)
    requires Faithful(c) && Shows(c, text, v) && !v.Broken? && AfterOp(c, h, text, op).1.Ok?
    ensures AfterOp(c, h, text, op).1.value == Made(h, op, Tip(h, v.recs)).hash
  {
    ReadingView(c, h, text, v);
  }

  lemma LosesNewline(c: Codec, h: Hasher, recs: seq<Record>, first: Record)
    requires Faithful(c) && IgnoresHash(h) && Verifies(h, recs) && |Rendered(c, recs)| <= CAP
    ensures var r := Made(h, Op(first, 0, true), Tip(h, recs));
            var mid := AfterOp(c, h, Rendered(c, recs), Op(first, |c.encode(r)|, true));
            mid.1.Err? && Reachable(c, h, mid.0, Unended(recs + [r])) && |mid.0| <= |Rendered(c, recs)| + |c.encode(r)|
  {
    assert forall x :: c.encode(x) != "";
    hide AfterOp, Rendered, Verifies, Faithful, IgnoresHash, Shows;
    var r, text := Made(h, Op(first, 0, true), Tip(h, recs)), Rendered(c, recs);
    var op := Op(first, |c.encode(r)|, true);
    assert Made(h, op, Tip(h, recs)) == r;
    ShowsWhole(c, recs);
    OpLength(c, h, text, Whole(recs), op);
    OpRefinesNext(c, h, text, Whole(recs), op);
    SealedFollows(h, recs, first.(prevHash := Tip(h, recs)));
    AppendKeepsVerified(h, recs, r);
  }

  lemma ShowsWhole(c: Codec, recs: seq<Record>)
    ensures Shows(c, Rendered(c, recs), Whole(recs))
  {
  }

  /** Behind an unended line every operation that succeeds breaks the file, and each one can succeed. */
  lemma SuccessBehindUnended(c: Codec, h: Hasher, text: string, recs: seq<Record>, draft: Record) returns (n: nat)
    requires Faithful(c) && Shows(c, text, Unended(recs)) && |text| <= CAP
    ensures AfterOp(c, h, text, Op(draft, n, true)).1.Ok?
    ensures forall k, synced :: AfterOp(c, h, text, Op(draft, k, synced)).1.Ok? ==>
      Shows(c, AfterOp(c, h, text, Op(draft, k, synced)).0, Broken)
  {
    hide AfterOp, Faithful, Shows;
    var r := Made(h, Op(draft, 0, true), Tip(h, recs));
    n := |c.encode(r)| + 1;
    OpRefinesNext(c, h, text, Unended(recs), Op(draft, n, true));
    forall k: nat, synced: bool | AfterOp(c, h, text, Op(draft, k, synced)).1.Ok?
      ensures Shows(c, AfterOp(c, h, text, Op(draft, k, synced)).0, Broken)
    {
      OpRefinesNext(c, h, text, Unended(recs), Op(draft, k, synced));
    }
  }

  /** The newline of one record is lost, the next operation succeeds, and from then on the chain cannot be read: for
      every chain and every two records. */
  lemma LostNewlineBreaksChain(c: Codec, h: Hasher, recs: seq<Record>, first: Record, second: Record) returns (n: nat)
    requires Faithful(c) && IgnoresHash(h) && Verifies(h, recs) &&
      |Rendered(c, recs)| + |c.encode(Made(h, Op(first, 0, true), Tip(h, recs)))| <= CAP
    ensures var text := Rendered(c, recs);
            var width := |c.encode(Made(h, Op(first, 0, true), Tip(h, recs)))|;
            var mid := AfterOp(c, h, text, Op(first, width, true));
            mid.1.Err? && VerifyText(c, h, mid.0) == Ok(true) &&
            var end := AfterOp(c, h, mid.0, Op(second, n, true));
            end.1.Ok? && VerifyText(c, h, end.0).Err?
  {
    hide AfterOp, VerifyText, Rendered, Verifies, Faithful, IgnoresHash, Shows;
    LosesNewline(c, h, recs, first);
    var r := Made(h, Op(first, 0, true), Tip(h, recs));
    var mid := AfterOp(c, h, Rendered(c, recs), Op(first, |c.encode(r)|, true)).0;
    VerifyReachable(c, h, mid, Unended(recs + [r]));
    assert VerifyText(c, h, mid) == Ok(true);
    n := SuccessBehindUnended(c, h, mid, recs + [r], second);
    var end := AfterOp(c, h, mid, Op(second, n, true)).0;
    VerifyReachable(c, h, end, Broken);
  }

  lemma OpLength(c: Codec, h: Hasher, text: string, v: View, op: Op)
    requires Faithful(c) && Shows(c, text, v) && !v.Broken? && |text| <= CAP
    ensures |AfterOp(c, h, text, op).0| <= |text| + op.written
  {
    ReadingView(c, h, text, v);
  }

  lemma OpSize(c: Codec, h: Hasher, text: string, v: View, op: Op)
    requires Faithful(c) && Shows(c, text, v) && !v.Broken? && |text| <= CAP
    ensures op.written <= |c.encode(Made(h, op, Tip(h, v.recs)))| + 1 ==>
      |AfterOp(c, h, text, op).0| == |text| + op.written
  {
    ReadingView(c, h, text, v);
  }

  /** A reader gets the records exactly when the lines decode and the file is within the cap. */
  lemma RecordsIffReadable(c: Codec, text: string, v: View)
    requires Faithful(c) && Shows(c, text, v)
    ensures Records(c, text).Ok? <==> !v.Broken? && |text| <= CAP
  {
    if |text| <= CAP {
      ReadingView(c, Hasher("", r => ""), text, v);
    }
  }

  /** The chain's owner. Each seal operation reads the tip, makes its record and appends one line; how much of the line
      is written and whether fsync succeeds is up to the file system. */
  class DispatchSeal {
    const codec: Codec
    const hasher: Hasher
    var text: string
    ghost var view: View

    ghost predicate Valid()
      reads this
    {
      Faithful(codec) && IgnoresHash(hasher) && Reachable(codec, hasher, text, view)
    }

    constructor (codec: Codec, hasher: Hasher)
      requires Faithful(codec) && IgnoresHash(hasher)
      ensures Valid() && this.codec == codec && this.hasher == hasher && view == Whole([])
    {
      this.codec, this.hasher, text, view := codec, hasher, "", Whole([]);
    }

    /** While the file stays readable its records only grow; on success over whole lines exactly the sealed draft is
        added. */
    method SealDraft(draft: Record) returns (r: Result<string>)
      requires Valid()
      modifies this`text, this`view
      ensures Valid() && (!view.Broken? ==> !old(view).Broken? && old(view).recs <= view.recs)
      ensures r.Ok? && old(view).Whole? ==>
                var rec := Sealed(hasher, draft.(prevHash := Tip(hasher, old(view).recs)));
                view == Whole(old(view).recs + [rec]) && r.value == rec.hash
      ensures old(view).Broken? ==> r.Err? && text == old(text)
    {
      hide Shows, Faithful, Verifies;
      var written: int := *;
      var synced: bool := *;
      var op := Op(draft, if written < 0 then 0 else written, synced);
      OpRefinesNext(codec, hasher, text, view, op);
      var next := OpKeepsReachable(codec, hasher, text, view, op);
      var tip := TipOf(codec, hasher, text);
      if tip.Err? {
        r := Err(tip.error);
      } else {
        if !view.Broken? && |text| <= CAP {
          ReadingView(codec, hasher, text, view);
        }
        var record := Made(hasher, op, tip.value);
        var line := Line(codec, record);
        text := text + Cut(line, op.written);
        r := if op.written >= |line| && op.synced then Ok(record.hash) else Err("append failed");
      }
      view := next;
    }

    method SealOutput(task: string, agent: string, sha: Option<string>, path: string, ts: string)
      returns (r: Result<string>)
      requires Valid()
      modifies this`text, this`view
      ensures Valid() && (!view.Broken? ==> !old(view).Broken? && old(view).recs <= view.recs)
      ensures r.Ok? && old(view).Whole? ==>
                var rec := OutputRecord(hasher, old(view).recs, task, agent, sha, path, ts);
                view == Whole(old(view).recs + [rec]) && r.value == rec.hash
    {
      r := SealDraft(Record(DispatchOutput, ts, task, agent, sha, path, None, None, None, None, None, None, "", ""));
    }

    method SealVerdict(task: string, agent: string, attempt: u32, command: string, exitCode: i32, passed: bool,
      ts: string)
      returns (r: Result<string>)
      requires Valid()
      modifies this`text, this`view
      ensures Valid() && (!view.Broken? ==> !old(view).Broken? && old(view).recs <= view.recs)
      ensures r.Ok? && old(view).Whole? ==>
                var rec := VerdictRecord(hasher, old(view).recs, task, agent, attempt, command, exitCode, passed, ts);
                view == Whole(old(view).recs + [rec]) && r.value == rec.hash
    {
      r := SealDraft(Record(AcceptanceVerdict, ts, task, agent, None, "", Some(attempt), Some(exitCode), Some(passed),
        Some(command),
                            None, None, "", ""));
    }

    method SealGlobalVerdict(round: u32, command: string, exitCode: i32, passed: bool, ts: string)
      returns (r: Result<string>)
      requires Valid()
      modifies this`text, this`view
      ensures Valid() && (!view.Broken? ==> !old(view).Broken? && old(view).recs <= view.recs)
      ensures r.Ok? && old(view).Whole? ==>
                var rec := GlobalRecord(hasher, old(view).recs, round, command, exitCode, passed, ts);
                view == Whole(old(view).recs + [rec]) && r.value == rec.hash
    {
      r := SealDraft(Record(GlobalVerdict, ts, "<rfc>", "<fleet>", None, "", None, Some(exitCode), Some(passed),
        Some(command),
                            Some(round), None, "", ""));
    }

    method SealReplanDecision(round: u32, decision: string, ts: string) returns (r: Result<string>)
      requires Valid()
      modifies this`text, this`view
      ensures Valid() && (!view.Broken? ==> !old(view).Broken? && old(view).recs <= view.recs)
      ensures r.Ok? && old(view).Whole? ==>
                var rec := ReplanRecord(hasher, old(view).recs, round, decision, ts);
                view == Whole(old(view).recs + [rec]) && r.value == rec.hash
    {
      r := SealDraft(Record(ReplanDecision, ts, "<rfc>", "<fleet>", None, "", None, None, None, None, Some(round),
        Some(decision), "", ""));
    }

    /** True exactly on a readable file within the cap; never false. */
    method VerifyChain() returns (r: Result<bool>)
      requires Valid()
      ensures r == Ok(true) <==> !view.Broken? && |text| <= CAP
      ensures r != Ok(false)
    {
      VerifyReachable(codec, hasher, text, view);
      var records := Records(codec, text);
      if records.Err? {
        return Err(records.error);
      }
      var intact := Verify(hasher, records.value);
      r := Ok(intact);
    }
  }
}
