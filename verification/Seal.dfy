/** The dispatch SEAL chain: records, the four seal operations' records, and the verifier. */
module Seal {
  import opened Wrappers

  datatype Kind = DispatchOutput | AcceptanceVerdict | GlobalVerdict | ReplanDecision | OtherDecision(name: string)

  datatype Record = Record(
    kind: Kind, ts: string, taskId: string, agent: string,
    responseSha: Option<string>, responsePath: string,
    attempt: Option<u32>, exitCode: Option<i32>, passed: Option<bool>, acceptCommand: Option<string>,
    round: Option<u32>, decision: Option<string>,
    prevHash: string, hash: string)

  /** The hash a chain starts from, and how a record's hash is recomputed (module SealBytes gives both). */
  datatype Hasher = Hasher(genesis: string, hash: Record -> string)

  ghost predicate IgnoresHash(h: Hasher) {
    forall r: Record, x: string :: h.hash(r.(hash := x)) == h.hash(r)
  }

  /** The hash the record at position `i` must point at. */
  function Link(h: Hasher, chain: seq<Record>, i: nat): string
    requires i <= |chain|
  {
    if i == 0 then h.genesis else chain[i - 1].hash
  }

  function Tip(h: Hasher, chain: seq<Record>): string {
    Link(h, chain, |chain|)
  }

  /** The record at `i` points at its predecessor and its hash recomputes. */
  predicate Intact(h: Hasher, chain: seq<Record>, i: nat)
    requires i < |chain|
  {
    chain[i].prevHash == Link(h, chain, i) && chain[i].hash == h.hash(chain[i])
  }

  predicate Verifies(h: Hasher, chain: seq<Record>) {
    forall i :: 0 <= i < |chain| ==> Intact(h, chain, i)
  }

  function Sealed(h: Hasher, r: Record): Record {
    r.(hash := h.hash(r))
  }

  function OutputRecord(h: Hasher, chain: seq<Record>, task: string, agent: string, sha: Option<string>, path: string,
    ts: string): Record {
    Sealed(h, Record(DispatchOutput, ts, task, agent, sha, path, None, None, None, None, None, None, Tip(h, chain), ""))
  }

  function VerdictRecord(h: Hasher, chain: seq<Record>, task: string, agent: string, attempt: u32, command: string,
                         exitCode: i32, passed: bool, ts: string): Record {
    Sealed(h, Record(AcceptanceVerdict, ts, task, agent, None, "", Some(attempt), Some(exitCode), Some(passed),
      Some(command),
                     None, None, Tip(h, chain), ""))
  }

  function GlobalRecord(h: Hasher, chain: seq<Record>, round: u32, command: string, exitCode: i32, passed: bool,
    ts: string): Record {
    Sealed(h, Record(GlobalVerdict, ts, "<rfc>", "<fleet>", None, "", None, Some(exitCode), Some(passed), Some(command),
                     Some(round), None, Tip(h, chain), ""))
  }

  function ReplanRecord(h: Hasher, chain: seq<Record>, round: u32, decision: string, ts: string): Record {
    Sealed(h, Record(ReplanDecision, ts, "<rfc>", "<fleet>", None, "", None, None, None, None, Some(round),
      Some(decision),
                     Tip(h, chain), ""))
  }

  /** A record sealed onto the current tip. */
  predicate Follows(h: Hasher, chain: seq<Record>, r: Record) {
    r.prevHash == Tip(h, chain) && r.hash == h.hash(r)
  }

  lemma SealedFollows(h: Hasher, chain: seq<Record>, r: Record)
    requires IgnoresHash(h) && r.prevHash == Tip(h, chain)
    ensures Follows(h, chain, Sealed(h, r))
  {
  }

  /** A record sealed onto the tip extends a verified chain to a verified chain and becomes the tip. */
  lemma AppendKeepsVerified(h: Hasher, chain: seq<Record>, r: Record)
    requires Verifies(h, chain) && Follows(h, chain, r)
    ensures Verifies(h, chain + [r])
    ensures Tip(h, chain + [r]) == r.hash
  {
    var longer := chain + [r];
    forall i | 0 <= i < |longer| ensures Intact(h, longer, i) {
      if i < |chain| {
        assert Intact(h, chain, i);
      }
    }
  }

  lemma PrefixVerifies(h: Hasher, chain: seq<Record>, n: nat)
    requires Verifies(h, chain) && n <= |chain|
    ensures Verifies(h, chain[..n])
  {
    forall i | 0 <= i < n ensures Intact(h, chain[..n], i) {
      assert Intact(h, chain, i);
    }
  }

  /** The verifier's walk: the link variable runs along the chain, and the first broken link stops it. */
  method Verify(h: Hasher, records: seq<Record>) returns (intact: bool)
    ensures intact == Verifies(h, records)
  {
    var prev := h.genesis;
    for k := 0 to |records|
      invariant prev == Link(h, records, k)
      invariant forall i :: 0 <= i < k ==> Intact(h, records, i)
    {
      var r := records[k];
      if r.prevHash != prev || h.hash(r) != r.hash {
        assert !Intact(h, records, k);
        return false;
      }
      prev := r.hash;
    }
    return true;
  }

  // ---- The file as its readers see it ----

  /** Whole lines; whole lines but the last newline is missing; or an unreadable last line. */
  datatype View = Whole(recs: seq<Record>) | Unended(recs: seq<Record>) | Broken

  /** The largest file the reader accepts. */
  const CAP: nat := 4 * 1024 * 1024

  /** A seal file: what its lines show, and its length. */
  datatype File = File(view: View, size: nat) {
    /** A reader gets the records: the lines decode and the file is within the cap. */
    predicate Readable() {
      !view.Broken? && size <= CAP
    }

    function Records(): seq<Record> {
      if view.Broken? then [] else view.recs
    }
  }

  /** How much of a record's line has reached the file. The newline is a write of its own. */
  datatype Extent = Nothing | Torn | NoNewline | FullLine

  function Reached(written: nat, width: nat): Extent {
    if written == 0 then Nothing else if written < width then Torn else if written == width then NoNewline else FullLine
  }

  /** One append on views: a cut inside the line breaks the file, a cut before the newline leaves the line unended, and
      anything written behind an unended line breaks the file. */
  function Next(v: View, r: Record, e: Extent): View {
    if e.Nothing? || v.Broken? then v
    else if v.Unended? || e.Torn? then Broken
    else if e.NoNewline? then Unended(v.recs + [r])
    else Whole(v.recs + [r])
  }

  /** An append of which `n` characters reach a file, with lines of `width` characters and a newline. */
  function Grown(f: File, r: Record, n: nat, width: nat): File {
    File(Next(f.view, r, Reached(n, width)), f.size + n)
  }

  predicate AllFull(es: seq<Extent>) {
    forall i :: 0 <= i < |es| ==> es[i].FullLine?
  }

  /** Whether a file found as `v` is readable after appends that reached it this far. */
  predicate StaysReadable(v: View, es: seq<Extent>) {
    !v.Broken? && (es == [] || (v.Whole? && AllFull(es[..|es| - 1]) && !es[|es| - 1].Torn?))
  }

  /** The view after some appends is the one these two conditions describe. */
  predicate ViewAfter(found: View, es: seq<Extent>, now: View) {
    (!now.Broken? <==> StaysReadable(found, es)) && (now.Whole? <==> found.Whole? && AllFull(es)) &&
    (forall i :: 0 <= i < |es| ==> !es[i].Nothing?)
  }

  lemma ViewAfterNext(found: View, es: seq<Extent>, now: View, r: Record, e: Extent)
    requires ViewAfter(found, es, now) && !now.Broken? && !e.Nothing?
    ensures ViewAfter(found, es + [e], Next(now, r, e))
  {
    var es' := es + [e];
    assert es'[..|es'| - 1] == es && es'[|es'| - 1] == e;
    assert AllFull(es') <==> AllFull(es) && e.FullLine? by {
      assert forall i :: 0 <= i < |es| ==> es'[i] == es[i];
    }
  }
}
