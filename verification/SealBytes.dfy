/** The bytes each record hashes, and what a chain's tip hash does and does not pin down. */
module SealBytes {
  import opened Wrappers
  import opened Seal

  /** SHA-256 followed by hex encoding. */
  type Digest = seq<byte> -> string

  predicate Ascii(s: string) {
    forall i :: 0 <= i < |s| ==> s[i] < 128 as char
  }

  predicate IsHash(s: string) {
    |s| == 64 && Ascii(s)
  }

  ghost predicate Hashes64(h: Hasher) {
    IsHash(h.genesis) && forall r :: IsHash(h.hash(r))
  }

  // ---- Encodings ----

  function Utf8Char(c: char): seq<byte> {
    var n := c as int;
    if n < 0x80 then [n]
    else if n < 0x800 then [0xC0 + n / 64, 0x80 + n % 64]
    else if n < 0x1_0000 then [0xE0 + n / 4096, 0x80 + n / 64 % 64, 0x80 + n % 64]
    else [0xF0 + n / 0x4_0000 % 8, 0x80 + n / 4096 % 64, 0x80 + n / 64 % 64, 0x80 + n % 64]
  }

  function Encode(f: char -> seq<byte>, s: string): seq<byte> {
    if s == "" then [] else f(s[0]) + Encode(f, s[1..])
  }

  function Utf8(s: string): seq<byte> {
    Encode(Utf8Char, s)
  }

  /** `to_le_bytes` of an unsigned number of the given byte width. */
  function LittleEndian(n: nat, width: nat): (r: seq<byte>)
    ensures |r| == width
  {
    if width == 0 then [] else [n % 256] + LittleEndian(n / 256, width - 1)
  }

  function LE(n: u32): seq<byte> {
    LittleEndian(n, 4)
  }

  /** Two's complement. */
  function LESigned(n: i32): seq<byte> {
    LittleEndian(if n < 0 then n + 0x1_0000_0000 else n, 4)
  }

  function Flag(b: bool): seq<byte> {
    [if b then 1 else 0]
  }

  /** The tag hashed for a record. Kinds outside the four dispatch kinds hash as outputs. */
  function Tag(k: Kind): string {
    match k
    case AcceptanceVerdict => "acceptance_verdict"
    case GlobalVerdict => "global_verdict"
    case ReplanDecision => "replan_decision"
    case _ => "dispatch_output"
  }

  /** The fields of fixed width in a verdict. */
  function Fixed(n: u32, exitCode: i32, passed: bool): seq<byte> {
    LE(n) + LESigned(exitCode) + Flag(passed)
  }

  function GlobalHead(r: Record): seq<byte> {
    Fixed(r.round.GetOr(0), r.exitCode.GetOr(0), r.passed.GetOr(false))
  }

  function VerdictHead(r: Record): seq<byte> {
    Fixed(r.attempt.GetOr(0), r.exitCode.GetOr(0), r.passed.GetOr(false))
  }

  function CommandText(r: Record): seq<byte> {
    Utf8(r.acceptCommand.GetOr("")) + Utf8(r.ts)
  }

  /** What follows the previous hash and the tag. Variable-width fields are not separated. */
  function Payload(r: Record): seq<byte> {
    match r.kind
    case AcceptanceVerdict => Utf8(r.taskId) + (VerdictHead(r) + CommandText(r))
    case GlobalVerdict => GlobalHead(r) + CommandText(r)
    case ReplanDecision => LE(r.round.GetOr(0)) + (Utf8(r.decision.GetOr("")) + Utf8(r.ts))
    case _ => Utf8(r.taskId) + (Utf8(r.responseSha.GetOr("")) + (Utf8(r.responsePath) + Utf8(r.ts)))
  }

  function Preimage(r: Record): seq<byte> {
    Utf8(r.prevHash) + (Utf8(Tag(r.kind)) + Payload(r))
  }

  /** The hasher of the dispatch chain; its genesis hash is 64 zeros. */
  function Sha(d: Digest): Hasher {
    Hasher("0000000000000000000000000000000000000000000000000000000000000000", (r: Record) => d(Preimage(r)))
  }

  lemma ShaIgnoresHash(d: Digest)
    ensures IgnoresHash(Sha(d))
  {
    forall r: Record, x: string ensures Sha(d).hash(r.(hash := x)) == Sha(d).hash(r) {
      assert Preimage(r.(hash := x)) == Preimage(r);
    }
  }

  // ---- Facts about byte strings ----

  /** Two byte strings cut at the same place have equal halves. */
  lemma SplitEqual(a: seq<byte>, b: seq<byte>, x: seq<byte>, y: seq<byte>)
    requires |a| == |x| && a + b == x + y
    ensures a == x && b == y
  {
    assert a == (a + b)[..|a|] && x == (x + y)[..|x|];
    assert b == (a + b)[|a|..] && y == (x + y)[|x|..];
  }

  lemma {:induction false} EncodeAscii(f: char -> seq<byte>, s: string)
    requires Ascii(s) && forall c: char :: c < 128 as char ==> f(c) == [c as int]
    ensures |Encode(f, s)| == |s|
    ensures forall i :: 0 <= i < |s| ==> Encode(f, s)[i] == s[i] as int
  {
    if s != "" {
      EncodeAscii(f, s[1..]);
      assert Encode(f, s) == [s[0] as int] + Encode(f, s[1..]);
    }
  }

  lemma Utf8Ascii(s: string)
    requires Ascii(s)
    ensures |Utf8(s)| == |s|
    ensures forall i :: 0 <= i < |s| ==> Utf8(s)[i] == s[i] as int
  {
    EncodeAscii(Utf8Char, s);
  }

  lemma {:induction false} EncodeAppend(f: char -> seq<byte>, s: string, t: string)
    ensures Encode(f, s + t) == Encode(f, s) + Encode(f, t)
  {
    if s == "" {
      assert s + t == t;
    } else {
      EncodeAppend(f, s[1..], t);
      assert (s + t)[1..] == s[1..] + t;
      assert Encode(f, s) == f(s[0]) + Encode(f, s[1..]) && Encode(f, s + t) == f(s[0]) + Encode(f, s[1..] + t);
      hide Encode;
    }
  }

  lemma Utf8Append(s: string, t: string)
    ensures Utf8(s + t) == Utf8(s) + Utf8(t)
  {
    EncodeAppend(Utf8Char, s, t);
  }

  /** What is hashed, kind by kind: the previous hash, the kind's tag, and the fields in order, without separators. */
  lemma HashedBytes(r: Record)
    ensures match r.kind
            case AcceptanceVerdict =>
              Preimage(r) == Utf8(r.prevHash + ("acceptance_verdict" + r.taskId)) +
                (LE(r.attempt.GetOr(0)) + LESigned(r.exitCode.GetOr(0)) + [if r.passed.GetOr(false) then 1 else 0] +
                 Utf8(r.acceptCommand.GetOr("") + r.ts))
            case GlobalVerdict =>
              Preimage(r) == Utf8(r.prevHash + "global_verdict") +
                (LE(r.round.GetOr(0)) + LESigned(r.exitCode.GetOr(0)) + [if r.passed.GetOr(false) then 1 else 0] +
                 Utf8(r.acceptCommand.GetOr("") + r.ts))
            case ReplanDecision =>
              Preimage(r) == Utf8(r.prevHash + "replan_decision") +
                (LE(r.round.GetOr(0)) + Utf8(r.decision.GetOr("") + r.ts))
            case _ =>
              Preimage(r) ==
                Utf8(r.prevHash + ("dispatch_output" +
                  (r.taskId + (r.responseSha.GetOr("") + (r.responsePath + r.ts)))))
  {
    hide Utf8, LE, LESigned;
    match r.kind
    case AcceptanceVerdict =>
      Utf8Append(r.prevHash, "acceptance_verdict" + r.taskId);
      Utf8Append("acceptance_verdict", r.taskId);
      Utf8Append(r.acceptCommand.GetOr(""), r.ts);
    case GlobalVerdict =>
      Utf8Append(r.prevHash, "global_verdict");
      Utf8Append(r.acceptCommand.GetOr(""), r.ts);
    case ReplanDecision =>
      Utf8Append(r.prevHash, "replan_decision");
      Utf8Append(r.decision.GetOr(""), r.ts);
    case _ =>
      var sha := r.responseSha.GetOr("");
      Utf8Append(r.responsePath, r.ts);
      Utf8Append(sha, r.responsePath + r.ts);
      Utf8Append(r.taskId, sha + (r.responsePath + r.ts));
      Utf8Append("dispatch_output", r.taskId + (sha + (r.responsePath + r.ts)));
      Utf8Append(r.prevHash, "dispatch_output" + (r.taskId + (sha + (r.responsePath + r.ts))));
  }

  /** The number four bytes stand for, the lowest first. */
  function NumberOf(b: seq<byte>): int
    requires |b| == 4
  {
    var b0: int, b1: int, b2: int, b3: int := b[0], b[1], b[2], b[3];
    b0 + 0x100 * b1 + 0x1_0000 * b2 + 0x100_0000 * b3
  }

  /** Numbers are hashed as four bytes, negative ones in two's complement. */
  lemma FourBytes(n: u32, m: i32)
    ensures NumberOf(LE(n)) == n && NumberOf(LESigned(m)) == if m < 0 then m as int + 0x1_0000_0000 else m
  {
    FourBytesOf(n);
    var x: int := m;
    FourBytesOf(if x < 0 then x + 0x1_0000_0000 else x);
  }

  lemma FourBytesOf(n: nat)
    requires n < 0x1_0000_0000
    ensures NumberOf(LittleEndian(n, 4)) == n
  {
    var n1, n2, n3 := n / 256, n / 256 / 256, n / 256 / 256 / 256;
    assert LittleEndian(n3, 1) == [n3 % 256] + LittleEndian(n3 / 256, 0);
    assert LittleEndian(n2, 2) == [n2 % 256] + LittleEndian(n3, 1);
    assert LittleEndian(n1, 3) == [n1 % 256] + LittleEndian(n2, 2);
    assert LittleEndian(n, 4) == [n % 256] + LittleEndian(n1, 3);
  }

  function Limit(width: nat): nat {
    if width == 0 then 1 else 256 * Limit(width - 1)
  }

  lemma {:induction false} LittleEndianInjective(m: nat, n: nat, width: nat)
    requires m < Limit(width) && n < Limit(width)
    requires LittleEndian(m, width) == LittleEndian(n, width)
    ensures m == n
  {
    if width > 0 {
      var a, b := LittleEndian(m, width), LittleEndian(n, width);
      assert a[0] == b[0] && a[1..] == b[1..];
      LittleEndianInjective(m / 256, n / 256, width - 1);
    }
  }

  // ---- What hashed bytes pin down ----

  /** Equal hashed bytes have equal links, because hashes have one width. */
  lemma LinkBytesSplit(link: string, rest: seq<byte>, link': string, rest': seq<byte>)
    requires IsHash(link) && IsHash(link')
    requires Utf8(link) + rest == Utf8(link') + rest'
    ensures link == link' && rest == rest'
  {
    Utf8Ascii(link);
    Utf8Ascii(link');
    SplitEqual(Utf8(link), rest, Utf8(link'), rest');
    forall i | 0 <= i < 64 ensures link[i] == link'[i] {
      assert Utf8(link)[i] == Utf8(link')[i];
    }
  }

  /** ... and equal tags, because the four tags differ in their first letter. */
  lemma TagBytesSplit(s: string, payload: seq<byte>, t: string, payload': seq<byte>)
    requires Ascii(s) && Ascii(t) && s != "" && t != "" && (s[0] == t[0] ==> s == t)
    requires Utf8(s) + payload == Utf8(t) + payload'
    ensures s == t && payload == payload'
  {
    Utf8Ascii(s);
    Utf8Ascii(t);
    assert (Utf8(s) + payload)[0] == s[0] as int && (Utf8(t) + payload')[0] == t[0] as int;
    SplitEqual(Utf8(s), payload, Utf8(t), payload');
  }

  /** The four tags differ in their first letter. */
  function Letter(k: Kind): char {
    match k
    case AcceptanceVerdict => 'a'
    case GlobalVerdict => 'g'
    case ReplanDecision => 'r'
    case _ => 'd'
  }

  lemma TagLetter(k: Kind)
    ensures Ascii(Tag(k)) && Tag(k) != "" && Tag(k)[0] == Letter(k)
  {
  }

  lemma TagsDiffer(k: Kind, k': Kind)
    ensures Ascii(Tag(k)) && Tag(k) != "" && (Tag(k)[0] == Tag(k')[0] ==> Tag(k) == Tag(k'))
    ensures Tag(k) == Tag(k') ==>
      k.GlobalVerdict? == k'.GlobalVerdict? && k.AcceptanceVerdict? == k'.AcceptanceVerdict? &&
        k.ReplanDecision? == k'.ReplanDecision?
  {
    TagLetter(k);
    TagLetter(k');
  }

  lemma PreimagePins(r: Record, q: Record)
    requires IsHash(r.prevHash) && IsHash(q.prevHash) && Preimage(r) == Preimage(q)
    ensures r.prevHash == q.prevHash && Tag(r.kind) == Tag(q.kind) && Payload(r) == Payload(q)
  {
    LinkBytesSplit(r.prevHash, Utf8(Tag(r.kind)) + Payload(r), q.prevHash, Utf8(Tag(q.kind)) + Payload(q));
    TagsDiffer(r.kind, q.kind);
    TagsDiffer(q.kind, r.kind);
    TagBytesSplit(Tag(r.kind), Payload(r), Tag(q.kind), Payload(q));
  }

  /** Everything of fixed width in a GlobalVerdict record is pinned by its hashed bytes, and so is the text after it as
      a whole. */
  lemma GlobalVerdictPinned(r: Record, q: Record)
    requires IsHash(r.prevHash) && IsHash(q.prevHash)
    requires Preimage(r) == Preimage(q) && r.kind.GlobalVerdict?
    ensures q.kind.GlobalVerdict? && CommandText(r) == CommandText(q)
    ensures r.round.GetOr(0) == q.round.GetOr(0) && r.exitCode.GetOr(0) == q.exitCode.GetOr(0)
    ensures r.passed.GetOr(false) == q.passed.GetOr(false)
  {
    PreimagePins(r, q);
    TagsDiffer(r.kind, q.kind);
    SplitEqual(GlobalHead(r), CommandText(r), GlobalHead(q), CommandText(q));
    FixedInjective(r.round.GetOr(0), r.exitCode.GetOr(0), r.passed.GetOr(false), q.round.GetOr(0), q.exitCode.GetOr(0),
      q.passed.GetOr(false));
  }

  lemma FixedInjective(m: u32, e: i32, p: bool, n: u32, f: i32, q: bool)
    requires Fixed(m, e, p) == Fixed(n, f, q)
    ensures m == n && e == f && p == q
  {
    SplitEqual(LE(m) + LESigned(e), Flag(p), LE(n) + LESigned(f), Flag(q));
    SplitEqual(LE(m), LESigned(e), LE(n), LESigned(f));
    assert Limit(4) == 0x1_0000_0000 by {
      assert Limit(1) == 256 && Limit(2) == 0x1_0000 && Limit(3) == 0x100_0000;
    }
    LittleEndianInjective(m, n, 4);
    var a: int, b: int := e, f;
    LittleEndianInjective(if a < 0 then a + 0x1_0000_0000 else a, if b < 0 then b + 0x1_0000_0000 else b, 4);
    assert Flag(p)[0] == Flag(q)[0];
  }

  // ---- UTF-8 is injective ----

  /** How many bytes an encoded character takes; its first byte tells. */
  function CharWidth(c: char): nat {
    if c as int < 0x80 then 1 else if c as int < 0x800 then 2 else if c as int < 0x1_0000 then 3 else 4
  }

  lemma CharWidths(c: char, d: char)
    ensures |Utf8Char(c)| == CharWidth(c) && (Utf8Char(c)[0] == Utf8Char(d)[0] ==> CharWidth(c) == CharWidth(d))
  {
    var m, n := c as int, d as int;
    assert n / 64 < 32 || n >= 0x800;
    assert n / 4096 < 16 || n >= 0x1_0000;
    assert m / 64 < 32 || m >= 0x800;
    assert m / 4096 < 16 || m >= 0x1_0000;
  }

  lemma DecodeTwo(n: nat)
    requires n < 0x800
    ensures n == n / 64 * 64 + n % 64
  {
  }

  lemma DecodeThree(n: nat)
    ensures n == n / 4096 * 4096 + n / 64 % 64 * 64 + n % 64
  {
    assert n / 64 == n / 4096 * 64 + n / 64 % 64;
  }

  lemma DecodeFour(n: nat)
    requires n < 0x20_0000
    ensures n == n / 0x4_0000 % 8 * 0x4_0000 + n / 4096 % 64 * 4096 + n / 64 % 64 * 64 + n % 64
  {
    assert n / 4096 == n / 0x4_0000 * 64 + n / 4096 % 64;
    DecodeThree(n);
  }

  lemma Utf8CharInjective(c: char, d: char)
    requires Utf8Char(c) == Utf8Char(d)
    ensures c == d
  {
    var m, n, x, y := c as int, d as int, Utf8Char(c), Utf8Char(d);
    CharWidths(c, d);
    assert x[0] == y[0];
    if CharWidth(c) == 2 {
      DecodeTwo(m);
      DecodeTwo(n);
      assert x[1] == y[1];
    } else if CharWidth(c) == 3 {
      DecodeThree(m);
      DecodeThree(n);
      assert x[1] == y[1] && x[2] == y[2];
    } else if CharWidth(c) == 4 {
      DecodeFour(m);
      DecodeFour(n);
      assert x[1] == y[1] && x[2] == y[2] && x[3] == y[3];
    }
  }

  lemma {:induction false} Utf8Injective(s: string, t: string)
    requires Utf8(s) == Utf8(t)
    ensures s == t
  {
    if s != "" && t != "" {
      CharWidths(s[0], t[0]);
      var a, b, x, y := Utf8Char(s[0]), Encode(Utf8Char, s[1..]), Utf8Char(t[0]), Encode(Utf8Char, t[1..]);
      assert (a + b)[0] == a[0] && (x + y)[0] == x[0];
      SplitEqual(a, b, x, y);
      Utf8CharInjective(s[0], t[0]);
      Utf8Injective(s[1..], t[1..]);
      assert s == [s[0]] + s[1..] && t == [t[0]] + t[1..];
    } else if s != "" {
      CharWidths(s[0], s[0]);
    } else if t != "" {
      CharWidths(t[0], t[0]);
    }
  }

  // ---- What a tip pins down ----

  /** The digest has no collision among the bytes these two chains hash. */
  ghost predicate CollisionFree(h: Hasher, pre: Record -> seq<byte>, a: seq<Record>, b: seq<Record>) {
    forall i, j :: 0 <= i < |a| && 0 <= j < |b| && h.hash(a[i]) == h.hash(b[j]) ==> pre(a[i]) == pre(b[j])
  }

  /** Equal hashed bytes have equal links, for all records of these two chains. */
  ghost predicate LinkPinned(pre: Record -> seq<byte>, a: seq<Record>, b: seq<Record>) {
    forall i, j :: 0 <= i < |a| && 0 <= j < |b| && pre(a[i]) == pre(b[j]) ==> a[i].prevHash == b[j].prevHash
  }

  /** No record's hash is the genesis hash. */
  predicate NeverGenesis(h: Hasher, chain: seq<Record>) {
    forall i :: 0 <= i < |chain| ==> chain[i].hash != h.genesis
  }

  /** Induction over prefixes: prefixes that end in one hash hash the same bytes throughout. */
  lemma {:induction false} PrefixTipPinsBytes(h: Hasher, pre: Record -> seq<byte>, a: seq<Record>, b: seq<Record>,
    m: nat, n: nat)
    requires m <= |a| && n <= |b| && Link(h, a, m) == Link(h, b, n)
    requires Verifies(h, a) && Verifies(h, b)
    requires CollisionFree(h, pre, a, b) && LinkPinned(pre, a, b) && NeverGenesis(h, a) && NeverGenesis(h, b)
    ensures m == n
    ensures forall i :: 0 <= i < m ==> pre(a[i]) == pre(b[i])
    decreases m
  {
    if m > 0 && n > 0 {
      assert Intact(h, a, m - 1) && Intact(h, b, n - 1);
      assert pre(a[m - 1]) == pre(b[n - 1]);
      PrefixTipPinsBytes(h, pre, a, b, m - 1, n - 1);
    }
  }

  lemma LinksAreHashes(h: Hasher, chain: seq<Record>, i: nat)
    requires Hashes64(h) && Verifies(h, chain) && i < |chain|
    ensures IsHash(chain[i].prevHash)
  {
    assert Intact(h, chain, i) && (i > 0 ==> Intact(h, chain, i - 1));
  }

  lemma LinksPinned(h: Hasher, a: seq<Record>, b: seq<Record>)
    requires Hashes64(h) && Verifies(h, a) && Verifies(h, b)
    ensures LinkPinned(Preimage, a, b)
  {
    forall i, j | 0 <= i < |a| && 0 <= j < |b| && Preimage(a[i]) == Preimage(b[j])
      ensures a[i].prevHash == b[j].prevHash
    {
      LinksAreHashes(h, a, i);
      LinksAreHashes(h, b, j);
      PreimagePins(a[i], b[j]);
    }
  }

  /** Two verified chains with one tip have one length and hash the same bytes at every position. */
  lemma TipPinsChain(h: Hasher, a: seq<Record>, b: seq<Record>)
    requires Hashes64(h) && Verifies(h, a) && Verifies(h, b) && Tip(h, a) == Tip(h, b)
    requires CollisionFree(h, Preimage, a, b) && NeverGenesis(h, a) && NeverGenesis(h, b)
    ensures |a| == |b|
    ensures forall i :: 0 <= i < |a| ==> Preimage(a[i]) == Preimage(b[i])
  {
    LinksPinned(h, a, b);
    PrefixTipPinsBytes(h, Preimage, a, b, |a|, |b|);
  }

  /** Same tip, same saga: every GlobalVerdict of one chain stands in the other with equal round, exit code and verdict.
      */
  lemma TipPinsGlobalVerdicts(h: Hasher, a: seq<Record>, b: seq<Record>, i: nat)
    requires Hashes64(h) && Verifies(h, a) && Verifies(h, b) && Tip(h, a) == Tip(h, b)
    requires CollisionFree(h, Preimage, a, b) && NeverGenesis(h, a) && NeverGenesis(h, b)
    requires i < |a| && a[i].kind.GlobalVerdict?
    ensures |a| == |b| && b[i].kind.GlobalVerdict?
    ensures a[i].round.GetOr(0) == b[i].round.GetOr(0) && a[i].exitCode.GetOr(0) == b[i].exitCode.GetOr(0)
    ensures a[i].passed.GetOr(false) == b[i].passed.GetOr(false)
  {
    TipPinsChain(h, a, b);
    LinksAreHashes(h, a, i);
    LinksAreHashes(h, b, i);
    GlobalVerdictPinned(a[i], b[i]);
  }

  // ---- What a tip does not pin down ----

  /** An output record's fields are hashed unseparated and without the agent: text moved from the task id to the sha
      keeps the tip. */
  lemma OutputFieldsCanShift(d: Digest, chain: seq<Record>, head: string, moved: string, agent: string, agent': string,
                             sha: string, path: string, ts: string)
    requires Verifies(Sha(d), chain) && moved != "" && agent != agent'
    ensures var h := Sha(d);
            var a := OutputRecord(h, chain, head + moved, agent, Some(sha), path, ts);
            var b := OutputRecord(h, chain, head, agent', Some(moved + sha), path, ts);
            Verifies(h, chain + [a]) && Verifies(h, chain + [b]) && Tip(h, chain + [a]) == Tip(h, chain + [b]) &&
            a.taskId != b.taskId && a.agent != b.agent
  {
    ShaIsDigest(d);
    var h := Sha(d);
    hide Sha;
    var a := OutputRecord(h, chain, head + moved, agent, Some(sha), path, ts);
    var b := OutputRecord(h, chain, head, agent', Some(moved + sha), path, ts);
    ShiftedPayload(a, b, head, moved, sha);
    SamePreimage(a, b);
    SamePreimage(a, a.(hash := ""));
    SamePreimage(b, b.(hash := ""));
    AppendKeepsVerified(h, chain, a);
    AppendKeepsVerified(h, chain, b);
    assert |a.taskId| != |b.taskId|;
  }

  /** The hasher digests the preimage and nothing else. */
  ghost predicate DigestOf(h: Hasher) {
    forall r, q :: Preimage(r) == Preimage(q) ==> h.hash(r) == h.hash(q)
  }

  lemma ShaIsDigest(d: Digest)
    ensures DigestOf(Sha(d))
  {
  }

  lemma SamePreimage(r: Record, q: Record)
    requires r.prevHash == q.prevHash && r.kind == q.kind && Payload(r) == Payload(q)
    ensures Preimage(r) == Preimage(q)
  {
  }

  lemma ShiftedPayload(a: Record, b: Record, head: string, moved: string, sha: string)
    requires a.kind.DispatchOutput? && b.kind.DispatchOutput? && a.responsePath == b.responsePath && a.ts == b.ts
    requires a.taskId == head + moved && a.responseSha == Some(sha) && b.taskId == head &&
      b.responseSha == Some(moved + sha)
    ensures Payload(a) == Payload(b)
  {
    EncodeAppend(Utf8Char, head, moved);
    EncodeAppend(Utf8Char, moved, sha);
    Regroup(Utf8(head), Utf8(moved), Utf8(sha), Utf8(a.responsePath) + Utf8(a.ts));
  }

  lemma Regroup(x: seq<byte>, y: seq<byte>, z: seq<byte>, w: seq<byte>)
    ensures (x + y) + (z + w) == x + ((y + z) + w)
  {
  }

  /** Exactly when equal hashed bytes do bind an output's fields: when the encoded widths agree. */
  lemma OutputFieldsPinnedIffWidths(r: Record, q: Record)
    requires IsHash(r.prevHash) && IsHash(q.prevHash)
    requires r.kind.DispatchOutput? && q.kind.DispatchOutput? && Preimage(r) == Preimage(q)
    ensures (r.taskId == q.taskId && r.responseSha.GetOr("") == q.responseSha.GetOr("") &&
      r.responsePath == q.responsePath && r.ts == q.ts)
       <==> (|Utf8(r.taskId)| == |Utf8(q.taskId)| &&
         |Utf8(r.responseSha.GetOr(""))| == |Utf8(q.responseSha.GetOr(""))| &&
             |Utf8(r.responsePath)| == |Utf8(q.responsePath)|)
  {
    PreimagePins(r, q);
    var rt, rs, rp, rz := Utf8(r.taskId), Utf8(r.responseSha.GetOr("")), Utf8(r.responsePath), Utf8(r.ts);
    var qt, qs, qp, qz := Utf8(q.taskId), Utf8(q.responseSha.GetOr("")), Utf8(q.responsePath), Utf8(q.ts);
    if |rt| == |qt| && |rs| == |qs| && |rp| == |qp| {
      SplitEqual(rt, rs + (rp + rz), qt, qs + (qp + qz));
      SplitEqual(rs, rp + rz, qs, qp + qz);
      SplitEqual(rp, rz, qp, qz);
      Utf8Injective(r.taskId, q.taskId);
      Utf8Injective(r.responseSha.GetOr(""), q.responseSha.GetOr(""));
      Utf8Injective(r.responsePath, q.responsePath);
      Utf8Injective(r.ts, q.ts);
    }
  }

  const SLASH: byte := 0x2F

  /** An output a sealer can vouch for by itself: no slash before an absolute path, response hash and time of fixed
      width. */
  predicate Regular(r: Record, shaWidth: nat, tsWidth: nat) {
    '/' !in r.taskId && '/' !in r.responseSha.GetOr("") && |Utf8(r.responseSha.GetOr(""))| == shaWidth &&
    r.responsePath != "" && r.responsePath[0] == '/' && |Utf8(r.ts)| == tsWidth
  }

  lemma {:induction false} NoSlashByte(s: string)
    requires '/' !in s
    ensures SLASH !in Utf8(s)
  {
    if s != "" {
      NoSlashByte(s[1..]);
      assert s[0] != '/';
      assert SLASH !in Utf8Char(s[0]);
    }
  }

  /** Two byte strings whose first slashes stand right behind `a` and `x` are cut at one place. */
  lemma FirstSlash(a: seq<byte>, b: seq<byte>, x: seq<byte>, y: seq<byte>)
    requires a + b == x + y && SLASH !in a && SLASH !in x && b != [] && y != [] && b[0] == SLASH && y[0] == SLASH
    ensures |a| == |x|
  {
    assert (a + b)[|a|] == SLASH && (x + y)[|x|] == SLASH;
    assert forall i :: 0 <= i < |a| ==> (a + b)[i] == a[i];
    assert forall i :: 0 <= i < |x| ==> (x + y)[i] == x[i];
  }

  /** Regular outputs are bound by their hashed bytes. */
  lemma RegularOutputsPinned(r: Record, q: Record, shaWidth: nat, tsWidth: nat)
    requires IsHash(r.prevHash) && IsHash(q.prevHash)
    requires r.kind.DispatchOutput? && q.kind.DispatchOutput? && Preimage(r) == Preimage(q)
    requires Regular(r, shaWidth, tsWidth) && Regular(q, shaWidth, tsWidth)
    ensures r.taskId == q.taskId && r.responseSha.GetOr("") == q.responseSha.GetOr("") &&
      r.responsePath == q.responsePath && r.ts == q.ts
  {
    PreimagePins(r, q);
    var rt, rs, rp, rz := Utf8(r.taskId), Utf8(r.responseSha.GetOr("")), Utf8(r.responsePath), Utf8(r.ts);
    var qt, qs, qp, qz := Utf8(q.taskId), Utf8(q.responseSha.GetOr("")), Utf8(q.responsePath), Utf8(q.ts);
    NoSlashByte(r.taskId);
    NoSlashByte(r.responseSha.GetOr(""));
    NoSlashByte(q.taskId);
    NoSlashByte(q.responseSha.GetOr(""));
    SlashFirst(r.responsePath);
    SlashFirst(q.responsePath);
    assert rt + (rs + (rp + rz)) == (rt + rs) + (rp + rz) && qt + (qs + (qp + qz)) == (qt + qs) + (qp + qz);
    FirstSlash(rt + rs, rp + rz, qt + qs, qp + qz);
    assert |(rt + rs) + (rp + rz)| == |(qt + qs) + (qp + qz)|;
    OutputFieldsPinnedIffWidths(r, q);
  }

  lemma SlashFirst(path: string)
    requires path != "" && path[0] == '/'
    ensures Utf8(path) != [] && Utf8(path)[0] == SLASH
  {
    assert Utf8Char('/') == [SLASH];
  }

  // ---- Verdicts and decisions ----

  /** A task verdict's attempt, exit code and flag are bound, with the task, exactly when the task ids have one encoded
      width. */
  lemma VerdictPinnedIffTaskWidths(r: Record, q: Record)
    requires IsHash(r.prevHash) && IsHash(q.prevHash) && Preimage(r) == Preimage(q) && r.kind.AcceptanceVerdict?
    ensures q.kind.AcceptanceVerdict?
    ensures (r.taskId == q.taskId && r.attempt.GetOr(0) == q.attempt.GetOr(0) &&
      r.exitCode.GetOr(0) == q.exitCode.GetOr(0) &&
             r.passed.GetOr(false) == q.passed.GetOr(false) && CommandText(r) == CommandText(q))
       <==> |Utf8(r.taskId)| == |Utf8(q.taskId)|
  {
    hide Fixed;
    PreimagePins(r, q);
    TagsDiffer(r.kind, q.kind);
    if |Utf8(r.taskId)| == |Utf8(q.taskId)| {
      SplitEqual(Utf8(r.taskId), VerdictHead(r) + CommandText(r), Utf8(q.taskId), VerdictHead(q) + CommandText(q));
      FixedWidth(r.attempt.GetOr(0), r.exitCode.GetOr(0), r.passed.GetOr(false));
      FixedWidth(q.attempt.GetOr(0), q.exitCode.GetOr(0), q.passed.GetOr(false));
      SplitEqual(VerdictHead(r), CommandText(r), VerdictHead(q), CommandText(q));
      Utf8Injective(r.taskId, q.taskId);
      FixedInjective(r.attempt.GetOr(0), r.exitCode.GetOr(0), r.passed.GetOr(false), q.attempt.GetOr(0),
        q.exitCode.GetOr(0), q.passed.GetOr(false));
    }
  }

  /** A verdict a sealer can vouch for by itself: a task id without control characters and a small attempt. */
  predicate RegularVerdict(r: Record) {
    (forall i :: 0 <= i < |r.taskId| ==> r.taskId[i] >= ' ') && r.attempt.GetOr(0) < 32
  }

  lemma {:induction false} NoControlByte(s: string)
    requires forall i :: 0 <= i < |s| ==> s[i] >= ' '
    ensures forall i :: 0 <= i < |Utf8(s)| ==> Utf8(s)[i] >= 32
  {
    if s != "" {
      NoControlByte(s[1..]);
      assert forall i :: 0 <= i < |Utf8Char(s[0])| ==> Utf8Char(s[0])[i] >= 32;
      assert Utf8(s) == Utf8Char(s[0]) + Utf8(s[1..]);
    }
  }

  /** Two byte strings whose first control bytes stand right behind `a` and `x` are cut at one place. */
  lemma FirstControl(a: seq<byte>, b: seq<byte>, x: seq<byte>, y: seq<byte>)
    requires a + b == x + y && b != [] && y != [] && b[0] < 32 && y[0] < 32
    requires (forall i :: 0 <= i < |a| ==> a[i] >= 32) && forall i :: 0 <= i < |x| ==> x[i] >= 32
    ensures |a| == |x|
  {
    assert (a + b)[|a|] < 32 && (x + y)[|x|] < 32;
    assert forall i :: 0 <= i < |a| ==> (a + b)[i] == a[i];
    assert forall i :: 0 <= i < |x| ==> (x + y)[i] == x[i];
  }

  lemma FixedLead(n: u32, exitCode: i32, passed: bool)
    ensures |Fixed(n, exitCode, passed)| == 9 && Fixed(n, exitCode, passed)[0] == n % 256
  {
  }

  /** Regular verdicts are bound by their hashed bytes. */
  lemma RegularVerdictsPinned(r: Record, q: Record)
    requires IsHash(r.prevHash) && IsHash(q.prevHash) && Preimage(r) == Preimage(q) && r.kind.AcceptanceVerdict?
    requires RegularVerdict(r) && RegularVerdict(q)
    ensures q.kind.AcceptanceVerdict? && r.taskId == q.taskId && r.attempt.GetOr(0) == q.attempt.GetOr(0)
    ensures r.exitCode.GetOr(0) == q.exitCode.GetOr(0) && r.passed.GetOr(false) == q.passed.GetOr(false)
  {
    PreimagePins(r, q);
    VerdictPinnedIffTaskWidths(r, q);
    NoControlByte(r.taskId);
    NoControlByte(q.taskId);
    FixedLead(r.attempt.GetOr(0), r.exitCode.GetOr(0), r.passed.GetOr(false));
    FixedLead(q.attempt.GetOr(0), q.exitCode.GetOr(0), q.passed.GetOr(false));
    hide Fixed, Utf8;
    FirstControl(Utf8(r.taskId), VerdictHead(r) + CommandText(r), Utf8(q.taskId), VerdictHead(q) + CommandText(q));
  }

  lemma FixedWidth(n: u32, exitCode: i32, passed: bool)
    ensures |Fixed(n, exitCode, passed)| == 9
  {
  }

  /** For every chain and task: a failing and a passing verdict with one tip. */
  lemma VerdictCanFlip(d: Digest, chain: seq<Record>, task: string, agent: string, command: string, ts: string)
    requires Verifies(Sha(d), chain)
    ensures var h := Sha(d);
            var a := VerdictRecord(h, chain, task, agent, 0, "\U{1}" + command, 1, false, ts);
            var b := VerdictRecord(h, chain, task + "\0", agent, 0x100_0000, command, 0, true, ts);
            Verifies(h, chain + [a]) && Verifies(h, chain + [b]) && Tip(h, chain + [a]) == Tip(h, chain + [b]) &&
            a.passed == Some(false) && b.passed == Some(true)
  {
    ShaIsDigest(d);
    var h := Sha(d);
    hide Sha;
    var a := VerdictRecord(h, chain, task, agent, 0, "\U{1}" + command, 1, false, ts);
    var b := VerdictRecord(h, chain, task + "\0", agent, 0x100_0000, command, 0, true, ts);
    FlippedPayload(a, b, task, command);
    SamePreimage(a, b);
    SamePreimage(a, a.(hash := ""));
    SamePreimage(b, b.(hash := ""));
    AppendKeepsVerified(h, chain, a);
    AppendKeepsVerified(h, chain, b);
  }

  lemma FlippedPayload(a: Record, b: Record, task: string, command: string)
    requires a.kind.AcceptanceVerdict? && b.kind.AcceptanceVerdict? && a.ts == b.ts && a.taskId == task &&
      b.taskId == task + "\0"
    requires a.attempt == Some(0) && a.exitCode == Some(1) && a.passed == Some(false) &&
      a.acceptCommand == Some("\U{1}" + command)
    requires b.attempt == Some(0x100_0000) && b.exitCode == Some(0) && b.passed == Some(true) &&
      b.acceptCommand == Some(command)
    ensures Payload(a) == Payload(b)
  {
    hide Utf8, Fixed;
    Utf8Append(task, "\0");
    Utf8Append("\U{1}", command);
    FlippedBytes();
    var t, c, z := Utf8(task), Utf8(command), Utf8(a.ts);
    var x, y := Fixed(0, 1, false), Fixed(0x100_0000, 0, true);
    assert Payload(a) == t + (x + (([1] + c) + z)) && Payload(b) == (t + [0]) + (y + (c + z));
    assert x + (([1] + c) + z) == (x + [1]) + (c + z) && (t + [0]) + (y + (c + z)) == t + (([0] + y) + (c + z));
  }

  lemma FlippedBytes()
    ensures Fixed(0, 1, false) + [1] == [0] + Fixed(0x100_0000, 0, true)
    ensures Utf8("\0") == [0] && Utf8("\U{1}") == [1]
  {
    Bytes(0, 0, 0, 0, 0);
    Bytes(1, 1, 0, 0, 0);
    Bytes(0x100_0000, 0, 0, 0, 1);
    assert Encode(Utf8Char, "\0"[1..]) == [] && Encode(Utf8Char, "\U{1}"[1..]) == [];
  }

  lemma Bytes(n: nat, a: byte, b: byte, c: byte, d: byte)
    requires n == a + 256 * (b + 256 * (c + 256 * d))
    ensures LittleEndian(n, 4) == [a, b, c, d]
  {
    var n1, n2, n3 := b + 256 * (c + 256 * d), c + 256 * d, d;
    assert LittleEndian(n3, 1) == [d] + LittleEndian(n3 / 256, 0);
    assert LittleEndian(n2, 2) == [c] + LittleEndian(n3, 1);
    assert LittleEndian(n1, 3) == [b] + LittleEndian(n2, 2);
    assert LittleEndian(n, 4) == [a] + LittleEndian(n1, 3);
  }

  /** A re-plan decision's round is bound; its text and time as one, and each by itself exactly when the texts have one
      encoded width. */
  lemma ReplanDecisionPinned(r: Record, q: Record)
    requires IsHash(r.prevHash) && IsHash(q.prevHash) && Preimage(r) == Preimage(q) && r.kind.ReplanDecision?
    ensures q.kind.ReplanDecision? && r.round.GetOr(0) == q.round.GetOr(0)
    ensures (r.decision.GetOr("") == q.decision.GetOr("") && r.ts == q.ts) <==>
      |Utf8(r.decision.GetOr(""))| == |Utf8(q.decision.GetOr(""))|
  {
    PreimagePins(r, q);
    TagsDiffer(r.kind, q.kind);
    var rd, rz, qd, qz := Utf8(r.decision.GetOr("")), Utf8(r.ts), Utf8(q.decision.GetOr("")), Utf8(q.ts);
    SplitEqual(LE(r.round.GetOr(0)), rd + rz, LE(q.round.GetOr(0)), qd + qz);
    assert Limit(4) == 0x1_0000_0000 by {
      assert Limit(1) == 256 && Limit(2) == 0x1_0000 && Limit(3) == 0x100_0000;
    }
    LittleEndianInjective(r.round.GetOr(0), q.round.GetOr(0), 4);
    if |rd| == |qd| {
      SplitEqual(rd, rz, qd, qz);
      Utf8Injective(r.decision.GetOr(""), q.decision.GetOr(""));
      Utf8Injective(r.ts, q.ts);
    }
  }
}
