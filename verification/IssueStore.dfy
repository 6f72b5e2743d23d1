/** The issues directory: crash-atomic writes through a temporary file, and what readers of the directory can see. */
module IssueStore {
  import opened Wrappers
  import opened IssueFile

  /** The files of the directory by name. */
  type Files = map<string, string>

  // ---- File names, as Rust's `Path` splits them ----

  function LastDot(name: string): (r: Option<nat>)
    ensures r.Some? ==> r.value < |name| && name[r.value] == '.'
    ensures forall k :: (if r.Some? then r.value + 1 else 0) <= k < |name| ==> name[k] != '.'
  {
    if name == "" then None
    else if name[|name| - 1] == '.' then Some(|name| - 1)
    else
      var r := LastDot(name[..|name| - 1]);
      assert r.Some? ==> name[..|name| - 1][r.value] == name[r.value];
      r
  }

  /** A leading dot does not start an extension. */
  predicate HasExtension(name: string) {
    LastDot(name).Some? && LastDot(name).value > 0
  }

  function Stem(name: string): string {
    if HasExtension(name) then name[..LastDot(name).value] else name
  }

  function Extension(name: string): Option<string> {
    if HasExtension(name) then Some(name[LastDot(name).value + 1..]) else None
  }

  function IssueName(id: string): string {
    id + ".md"
  }

  function TmpName(name: string): string {
    Stem(name) + ".tmp"
  }

  /** The id of an issue file, or None for every other entry. */
  function IssueIdOf(name: string): Option<string> {
    if Extension(name) == Some("md") then Some(Stem(name)) else None
  }

  lemma {:induction false} LastDotOf(stem: string, ext: string)
    requires '.' !in ext
    ensures LastDot(stem + ("." + ext)) == Some(|stem|)
    decreases |ext|
  {
    var name := stem + ("." + ext);
    if ext != "" {
      var n := |ext| - 1;
      assert name[|name| - 1] == ext[n];
      LastDotOf(stem, ext[..n]);
      assert name[..|name| - 1] == stem + ("." + ext[..n]);
    }
  }

  lemma Splits(stem: string, ext: string)
    requires stem != "" && '.' !in ext
    ensures Stem(stem + ("." + ext)) == stem && Extension(stem + ("." + ext)) == Some(ext)
  {
    LastDotOf(stem, ext);
    var name := stem + ("." + ext);
    assert name[..|stem|] == stem && name[|stem| + 1..] == ext;
  }

  lemma IssueNames(id: string)
    ensures IssueIdOf(IssueName(id)) == if id == "" then None else Some(id)
  {
    assert IssueName(id) == id + ("." + "md");
    if id == "" {
      LastDotOf("", "md");
    } else {
      Splits(id, "md");
    }
  }

  lemma IdNamesFile(name: string)
    requires IssueIdOf(name).Some?
    ensures name == IssueName(IssueIdOf(name).value) && IssueIdOf(name).value != ""
  {
    var k := LastDot(name).value;
    assert name == name[..k] + ([name[k]] + name[k + 1..]);
  }

  /** A temporary file is never an issue file. */
  lemma TmpIsNoIssue(name: string)
    requires name != ""
    ensures IssueIdOf(TmpName(name)) == None && forall id :: TmpName(name) != IssueName(id)
  {
    assert TmpName(name) == Stem(name) + ("." + "tmp");
    Splits(Stem(name), "tmp");
    var tmp := TmpName(name);
    assert tmp[|tmp| - 1] == 'p';
    forall id ensures tmp != IssueName(id) {
      assert IssueName(id)[|IssueName(id)| - 1] == 'd';
    }
  }

  // ---- One write, stopped anywhere ----

  /** The directory after `progress` steps of a write: create the temporary file, put the body into it piece by piece,
      rename it. */
  function Stopped(files: Files, name: string, body: string, progress: nat): Files {
    if progress == 0 then files
    else if progress <= |body| + 1 then files[TmpName(name) := body[..progress - 1]]
    else (files - {TmpName(name)})[name := body]
  }

  predicate Completed(body: string, progress: nat) {
    progress > |body| + 1
  }

  function Get(files: Files, id: string): Option<string> {
    if IssueName(id) in files then Some(files[IssueName(id)]) else None
  }

  /** The ids a directory scan finds. */
  function Listed(files: Files): set<string> {
    set name | name in files && IssueIdOf(name).Some? :: IssueIdOf(name).value
  }

  /** A scan lists exactly the ids that can be read; the empty id alone is written but never listed. */
  lemma ListedIffReadable(files: Files, id: string)
    ensures id in Listed(files) <==> id != "" && Get(files, id).Some?
  {
    if id in Listed(files) {
      var name :| name in files && IssueIdOf(name) == Some(id);
      IdNamesFile(name);
    }
    if id != "" && IssueName(id) in files {
      IssueNames(id);
    }
  }

  /** Wherever a write stops, every reader sees for every id the complete old text or, once it is complete, the complete
      new one. */
  lemma StoppedWriteIsAtomic(files: Files, target: string, body: string, progress: nat, id: string)
    ensures Get(Stopped(files, IssueName(target), body, progress), id)
         == if id == target && Completed(body, progress) then Some(body) else Get(files, id)
  {
    TmpIsNoIssue(IssueName(target));
    assert IssueName(id) == IssueName(target) ==> id == target by {
      assert IssueName(id)[..|IssueName(id)| - 3] == id && IssueName(target)[..|IssueName(target)| - 3] == target;
    }
  }

  // ---- Histories of writes ----

  datatype Write = Write(id: string, body: string, progress: nat)

  function RunWrites(files: Files, writes: seq<Write>): Files {
    if writes == [] then files
    else
      var last := writes[|writes| - 1];
      Stopped(RunWrites(files, writes[..|writes| - 1]), IssueName(last.id), last.body, last.progress)
  }

  /** The body of the last completed write to an id. */
  function LastCompleted(writes: seq<Write>, id: string): Option<string> {
    if writes == [] then None
    else
      var last := writes[|writes| - 1];
      if last.id == id && Completed(last.body, last.progress) then Some(last.body)
      else LastCompleted(writes[..|writes| - 1], id)
  }

  /** Any sequence of writes, each stopped anywhere: the directory reads as a map in which exactly the completed writes
      happened. */
  lemma {:induction false} WritesAreAtomic(files: Files, writes: seq<Write>, id: string)
    ensures Get(RunWrites(files, writes), id) ==
      match LastCompleted(writes, id) case Some(body) => Some(body) case None => Get(files, id)
    ensures id in Listed(RunWrites(files, writes)) <==> id != "" && Get(RunWrites(files, writes), id).Some?
  {
    ListedIffReadable(RunWrites(files, writes), id);
    if writes != [] {
      var n := |writes| - 1;
      WritesAreAtomic(files, writes[..n], id);
      StoppedWriteIsAtomic(RunWrites(files, writes[..n]), writes[n].id, writes[n].body, writes[n].progress, id);
    }
  }

  /** Reading an issue back. */
  function ReadIssue(c: Codec, files: Files, id: string): Result<Option<Issue>> {
    match Get(files, id)
    case None => Ok(None)
    case Some(raw) =>
      match Parse(c, raw)
      case Err(e) => Err(e)
      case Ok(issue) => Ok(Some(issue))
  }

  /** A stopped write of an issue is a write in the actor's store: `Reread` of the new issue, or nothing. */
  lemma StoreWriteRefinesMap(c: Codec, files: Files, issue: Issue, fm: string, progress: nat, id: string)
    requires Frontmatter(c, issue.meta, fm)
    ensures var after := Stopped(files, IssueName(issue.meta.id), Render(c, issue), progress);
            ReadIssue(c, after, id) ==
              if id == issue.meta.id &&
                Completed(Render(c, issue), progress) then Ok(Some(Reread(issue))) else ReadIssue(c, files, id)
  {
    StoppedWriteIsAtomic(files, issue.meta.id, Render(c, issue), progress, id);
    ParseRendered(c, issue, fm);
  }

  // ---- The writer ----

  /** The directory, with every state a crash could have left. */
  class Directory {
    var files: Files
    ghost var past: seq<Files>

    constructor ()
      ensures files == map[] && past == []
    {
      files, past := map[], [];
    }

    /** Create, write in pieces, rename; any step may fail. Every state on the way is a stopped write. */
    method AtomicWrite(name: string, body: string) returns (ok: bool)
      requires name != ""
      modifies this
      ensures old(past) <= past
      ensures forall k :: |old(past)| <= k < |past| ==> exists p: nat :: past[k] == Stopped(old(files), name, body, p)
      ensures ok ==> files == Stopped(old(files), name, body, |body| + 2)
      ensures !ok ==> exists p: nat :: files == Stopped(old(files), name, body, p) && !Completed(body, p)
    {
      ghost var before := files;
      ghost var history := past;
      var tmp := TmpName(name);
      assert files == Stopped(before, name, body, 0);
      var creatable: bool := *;
      if !creatable {
        return false;
      }
      files := files[tmp := ""];
      assert files == Stopped(before, name, body, 1);
      past := past + [files];
      var n := 0;
      while n < |body|
        invariant n <= |body| && files == Stopped(before, name, body, n + 1)
        invariant history <= past
        invariant forall k :: |history| <= k < |past| ==> exists p: nat :: past[k] == Stopped(before, name, body, p)
      {
        var piece: int := *;
        if piece <= 0 || piece > |body| - n {
          return false;
        }
        n := n + piece;
        files := files[tmp := body[..n]];
        assert files == Stopped(before, name, body, n + 1);
        past := past + [files];
      }
      var renamed: bool := *;
      if !renamed {
        return false;
      }
      files := (files - {tmp})[name := body];
      assert body[..n] == body;
      assert files == Stopped(before, name, body, |body| + 2);
      past := past + [files];
      ok := true;
    }
  }
}
