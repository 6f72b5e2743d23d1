/**
 * The Seatbelt profile generator as a compiler: the profile it writes, read back and evaluated with
 * the last matching rule winning, decides every access the way a simple function of the spec does.
 */
module Sbpl {
  import opened SbplText

  datatype ProfileSpec = ProfileSpec(
    logTag: string,
    workspace: string,
    workspaceRead: bool,
    workspaceWrite: bool,
    readOnly: seq<string>,
    readWrite: seq<string>,
    denyWrite: seq<string>,
    denyExec: seq<string>)

  // ---- The rules, section by section ----

  function Allow(op: string, clauses: seq<Clause>): Form {
    Form(["allow", op], clauses)
  }

  function Deny(op: string, clauses: seq<Clause>, tag: string): Form {
    Form(["deny", op], clauses + [Message(tag)])
  }

  function Message(tag: string): Clause {
    Clause(["with", "message"], Quoted(tag))
  }

  function Literally(path: string): Clause {
    Clause(["literal"], Quoted(path))
  }

  function Subpath(path: string): Clause {
    Clause(["subpath"], Quoted(path))
  }

  const SAME_SANDBOX := Clause(["target", "same-sandbox"], NoArg)
  const TTY_PATTERN := "^/dev/ttys[0-9]+$"
  const XCODE_LINK := "/var/db/xcode_select_link"

  function HeadForms(tag: string): seq<Form> {
    [Form(["version", "1"], []), Deny("default", [], tag)]
  }

  const BASICS := [
    Allow("process-fork", []),
    Allow("process-exec", []),
    Allow("process-info*", [SAME_SANDBOX]),
    Allow("signal", [SAME_SANDBOX]),
    Allow("mach-priv-task-port", [SAME_SANDBOX]),
    Allow("sysctl-read", []),
    Allow("ipc-posix-shm", []),
    Allow("ipc-posix-sem", []),
    Allow("user-preference-read", []),
    Allow("network*", []),
    Allow("system-socket", [])
  ]

  const MACH_NAMES := [
    "com.apple.system.logger",
    "com.apple.system.notification_center",
    "com.apple.logd",
    "com.apple.lsd.mapdb",
    "com.apple.SecurityServer",
    "com.apple.CoreServices.coreservicesd",
    "com.apple.dnssd.service",
    "com.apple.coreservices.launchservicesd"
  ]

  function GlobalName(name: string): Clause {
    Clause(["global-name"], Quoted(name))
  }

  function GlobalNames(names: seq<string>): seq<Clause> {
    seq(|names|, i requires 0 <= i < |names| => GlobalName(names[i]))
  }

  function MachLookup(names: seq<string>): Form {
    Allow("mach-lookup", GlobalNames(names))
  }

  function DeviceUse(clause: Clause): Form {
    Form(["allow", "file-read*", "file-write-data", "file-ioctl"], [clause])
  }

  const DEVICES := ["/dev/null", "/dev/zero", "/dev/random", "/dev/urandom", "/dev/tty"]

  const TERMINALS := [DeviceUse(Clause(["regex"], Regex(TTY_PATTERN))), DeviceUse(Subpath("/dev/fd"))]

  const READ_FIXES := [
    Allow("file-read*", [Literally("/")]),
    Allow("file-read-metadata", [Clause(["vnode-type", "DIRECTORY"], NoArg)]),
    Allow("file-read-metadata", [Clause(["vnode-type", "SYMLINK"], NoArg)])
  ]

  const RUNTIME_READ_ROOTS := ["/usr/lib", "/usr/share", "/Library/Developer", "/opt/homebrew", "/usr/local"]

  function ReadUnder(path: string): Form {
    Allow("file-read*", [Subpath(path)])
  }

  function WriteUnder(path: string): Form {
    Allow("file-write*", [Subpath(path)])
  }

  /** The forms that `f` makes of each path, in order. */
  function Each(paths: seq<string>, f: string -> seq<Form>): seq<Form> {
    if paths == [] then [] else Each(paths[..|paths| - 1], f) + f(paths[|paths| - 1])
  }

  function DeviceForms(path: string): seq<Form> {
    [DeviceUse(Literally(path))]
  }

  function ReadGrant(path: string): seq<Form> {
    [ReadUnder(path)]
  }

  function ReadWriteGrant(path: string): seq<Form> {
    [ReadUnder(path), WriteUnder(path)]
  }

  function DenyWriteForms(tag: string): string -> seq<Form> {
    path => [Deny("file-write*", [Subpath(path)], tag)]
  }

  function DenyExecForms(tag: string): string -> seq<Form> {
    path => [Deny("process-exec*", [Literally(path)], tag)]
  }

  function DeviceSection(): seq<Form> {
    Each(DEVICES, DeviceForms) + TERMINALS
  }

  function FixedReads(): seq<Form> {
    READ_FIXES + Each(RUNTIME_READ_ROOTS, ReadGrant) + [Allow("file-read*", [Literally(XCODE_LINK)])]
  }

  function WorkspaceReads(spec: ProfileSpec): seq<string> {
    if spec.workspaceRead then [spec.workspace] else []
  }

  function ReadSection(spec: ProfileSpec): seq<Form> {
    FixedReads() + Each(WorkspaceReads(spec) + spec.readOnly, ReadGrant)
  }

  function WorkspaceWrites(spec: ProfileSpec): seq<Form> {
    if spec.workspaceRead && spec.workspaceWrite then [WriteUnder(spec.workspace)] else []
  }

  function WriteSection(spec: ProfileSpec): seq<Form> {
    WorkspaceWrites(spec) + Each(spec.readWrite, ReadWriteGrant)
  }

  function DenySection(spec: ProfileSpec): seq<Form> {
    Each(spec.denyWrite, DenyWriteForms(spec.logTag)) + Each(spec.denyExec, DenyExecForms(spec.logTag))
  }

  function AllowSection(spec: ProfileSpec): seq<Form> {
    BASICS + [MachLookup(MACH_NAMES)] + DeviceSection() + ReadSection(spec) + WriteSection(spec)
  }

  /** The whole profile. */
  function Profile(spec: ProfileSpec): seq<Form> {
    HeadForms(spec.logTag) + AllowSection(spec) + DenySection(spec)
  }

  // ---- How a profile decides ----

  datatype Vnode = RegularFile | Directory | Symlink | OtherNode

  /** An operation by its name, on a file, on another process (of the same sandbox or not) or on a named service. */
  datatype Access = Access(op: string, path: string, vnode: Vnode, sameSandbox: bool, service: string)

  predicate StartsWith(s: string, head: string) {
    |head| <= |s| && forall i :: 0 <= i < |head| ==> s[i] == head[i]
  }

  /** `default` covers every operation and a trailing `*` every operation with that stem. */
  predicate Covers(pattern: string, op: string) {
    pattern == "default" || pattern == op ||
    (pattern != "" && pattern[|pattern| - 1] == '*' && StartsWith(op, pattern[..|pattern| - 1]))
  }

  /** `path` is `root` or lies below it. */
  predicate Under(root: string, path: string) {
    path == root || StartsWith(path, if root != "" && root[|root| - 1] == '/' then root else root + "/")
  }

  predicate UnderAny(roots: seq<string>, path: string) {
    exists i :: 0 <= i < |roots| && Under(roots[i], path)
  }

  predicate IsTerminal(path: string) {
    |path| > 9 && StartsWith(path, "/dev/ttys") && forall i :: 9 <= i < |path| ==> '0' <= path[i] <= '9'
  }

  predicate IsFilter(c: Clause) {
    c.words != ["with", "message"]
  }

  predicate Selects(c: Clause, a: Access) {
    if c.words == ["literal"] then c.arg == Quoted(a.path)
    else if c.words == ["subpath"] then c.arg.Quoted? && Under(c.arg.text, a.path)
    else if c.words == ["regex"] then c.arg == Regex("^/dev/ttys[0-9]+$") && IsTerminal(a.path)
    else if c.words == ["vnode-type", "DIRECTORY"] then a.vnode.Directory?
    else if c.words == ["vnode-type", "SYMLINK"] then a.vnode.Symlink?
    else if c.words == ["target", "same-sandbox"] then a.sameSandbox
    else if c.words == ["global-name"] then c.arg == Quoted(a.service)
    else false
  }

  predicate IsAllow(f: Form) {
    f.words != [] && f.words[0] == "allow"
  }

  predicate IsDeny(f: Form) {
    f.words != [] && f.words[0] == "deny"
  }

  predicate CoveredBy(f: Form, op: string) {
    exists i :: 1 <= i < |f.words| && Covers(f.words[i], op)
  }

  predicate Matches(f: Form, a: Access) {
    (IsAllow(f) || IsDeny(f)) && CoveredBy(f, a.op) &&
    ((forall i :: 0 <= i < |f.clauses| ==> !IsFilter(f.clauses[i])) ||
     (exists i :: 0 <= i < |f.clauses| && IsFilter(f.clauses[i]) && Selects(f.clauses[i], a)))
  }

  /** The last matching rule decides. */
  predicate Permits(fs: seq<Form>, a: Access) {
    if fs == [] then false
    else
      var last := fs[|fs| - 1];
      if Matches(last, a) then IsAllow(last) else Permits(fs[..|fs| - 1], a)
  }

  // ---- What the spec says ----

  predicate IsRead(op: string) {
    StartsWith(op, "file-read")
  }

  predicate IsWrite(op: string) {
    StartsWith(op, "file-write")
  }

  predicate IsDevice(path: string) {
    path == "/dev/null" || path == "/dev/zero" || path == "/dev/random" || path == "/dev/urandom" ||
    path == "/dev/tty" || IsTerminal(path) || Under("/dev/fd", path)
  }

  predicate IsRuntime(path: string) {
    path == "/" || path == "/var/db/xcode_select_link" || Under("/usr/lib", path) || Under("/usr/share", path) ||
    Under("/Library/Developer", path) || Under("/opt/homebrew", path) || Under("/usr/local", path)
  }

  predicate IsService(name: string) {
    name == "com.apple.system.logger" || name == "com.apple.system.notification_center" || name == "com.apple.logd" ||
    name == "com.apple.lsd.mapdb" || name == "com.apple.SecurityServer" ||
    name == "com.apple.CoreServices.coreservicesd" || name == "com.apple.dnssd.service" ||
    name == "com.apple.coreservices.launchservicesd"
  }

  predicate Readable(spec: ProfileSpec, path: string) {
    IsDevice(path) || IsRuntime(path) || (spec.workspaceRead && Under(spec.workspace, path)) ||
    UnderAny(spec.readOnly, path) || UnderAny(spec.readWrite, path)
  }

  predicate Writable(spec: ProfileSpec, path: string) {
    !UnderAny(spec.denyWrite, path) &&
    (UnderAny(spec.readWrite, path) || (spec.workspaceRead && spec.workspaceWrite && Under(spec.workspace, path)))
  }

  /** Operations every caged process may use. */
  predicate IsFree(op: string) {
    op == "process-fork" || op == "sysctl-read" || op == "ipc-posix-shm" || op == "ipc-posix-sem" ||
    op == "user-preference-read" || op == "system-socket" || StartsWith(op, "network")
  }

  /** Operations on processes of the same sandbox. */
  predicate IsInward(op: string) {
    op == "signal" || op == "mach-priv-task-port" || StartsWith(op, "process-info")
  }

  predicate FileGranted(spec: ProfileSpec, a: Access) {
    (IsRead(a.op) && Readable(spec, a.path)) ||
    (a.op == "file-read-metadata" && (a.vnode.Directory? || a.vnode.Symlink?)) ||
    (IsWrite(a.op) && Writable(spec, a.path)) ||
    (a.op == "file-write-data" && IsDevice(a.path) && !UnderAny(spec.denyWrite, a.path)) ||
    (a.op == "file-ioctl" && IsDevice(a.path))
  }

  /** The access function a profile is meant to be; every other operation is refused. */
  predicate Granted(spec: ProfileSpec, a: Access) {
    FileGranted(spec, a) || (a.op == "process-exec" && a.path !in spec.denyExec) || IsFree(a.op) ||
    (IsInward(a.op) && a.sameSandbox) || (a.op == "mach-lookup" && IsService(a.service))
  }

  // ---- Allow rules in front, deny rules behind ----

  ghost predicate AnyMatch(fs: seq<Form>, a: Access) {
    exists i :: 0 <= i < |fs| && Matches(fs[i], a)
  }

  lemma AnyMatchAppend(x: seq<Form>, y: seq<Form>, a: Access)
    ensures AnyMatch(x + y, a) == (AnyMatch(x, a) || AnyMatch(y, a))
  {
    hide Matches;
    var z := x + y;
    assert forall i :: 0 <= i < |x| ==> z[i] == x[i];
    assert forall i :: 0 <= i < |y| ==> z[|x| + i] == y[i];
    assert forall i :: |x| <= i < |z| ==> z[i] == y[i - |x|];
  }

  lemma AnyMatchOne(f: Form, a: Access)
    ensures AnyMatch([f], a) == Matches(f, a)
  {
    hide Matches;
    assert [f][0] == f;
  }

  /** A block of rules with one verdict overrides what stands before it wherever one of them matches. */
  lemma {:induction false} PermitsBlock(before: seq<Form>, block: seq<Form>, allow: bool, a: Access)
    requires forall i :: 0 <= i < |block| ==> IsAllow(block[i]) == allow
    ensures Permits(before + block, a) == if AnyMatch(block, a) then allow else Permits(before, a)
  {
    hide Matches, IsAllow;
    var n := |block| - 1;
    if block == [] {
      assert before + block == before;
    } else {
      PermitsBlock(before, block[..n], allow, a);
      assert (before + block)[..|before| + n] == before + block[..n];
      AnyMatchAppend(block[..n], [block[n]], a);
      AnyMatchOne(block[n], a);
      assert block == block[..n] + [block[n]];
    }
  }

  lemma NoneMatch(a: Access)
    ensures !AnyMatch([], a)
  {
  }

  /** The paths of a list for which `f` makes a matching rule. */
  lemma {:induction false} AnyMatchEach(paths: seq<string>, f: string -> seq<Form>, a: Access)
    ensures AnyMatch(Each(paths, f), a) <==> exists i :: 0 <= i < |paths| && AnyMatch(f(paths[i]), a)
  {
    hide AnyMatch;
    var n := |paths| - 1;
    if paths == [] {
      NoneMatch(a);
    } else {
      AnyMatchEach(paths[..n], f, a);
      AnyMatchAppend(Each(paths[..n], f), f(paths[n]), a);
    }
  }

  // ---- What each kind of rule matches ----

  lemma StarCovers(stem: string, op: string)
    ensures Covers(stem + "*", op) == StartsWith(op, stem)
  {
    var pattern := stem + "*";
    assert pattern[..|pattern| - 1] == stem && pattern[|pattern| - 1] == '*' && "default"[6] == 't';
  }

  lemma ExactCovers(pattern: string, op: string)
    requires pattern != "" && pattern[|pattern| - 1] != '*' && pattern != "default"
    ensures Covers(pattern, op) == (op == pattern)
  {
  }

  lemma StarredCovers(op: string)
    ensures Covers("file-read*", op) == IsRead(op)
    ensures Covers("file-write*", op) == IsWrite(op)
    ensures Covers("process-exec*", op) == StartsWith(op, "process-exec")
    ensures Covers("process-info*", op) == StartsWith(op, "process-info")
    ensures Covers("network*", op) == StartsWith(op, "network")
  {
    StarCovers("file-read", op);
    StarCovers("file-write", op);
    StarCovers("process-exec", op);
    StarCovers("process-info", op);
    StarCovers("network", op);
    hide Covers, StartsWith;
    assert "file-read" + "*" == "file-read*" && "file-write" + "*" == "file-write*";
    assert "process-exec" + "*" == "process-exec*" && "process-info" + "*" == "process-info*";
    assert "network" + "*" == "network*";
  }

  lemma FileCovers(op: string)
    ensures Covers("file-read-metadata", op) == (op == "file-read-metadata")
    ensures Covers("file-write-data", op) == (op == "file-write-data")
    ensures Covers("file-ioctl", op) == (op == "file-ioctl")
    ensures Covers("default", op)
  {
    assert "file-read-metadata"[0] == "file-write-data"[0] == "file-ioctl"[0] == 'f' && "default"[0] == 'd';
    ExactCovers("file-read-metadata", op);
    ExactCovers("file-write-data", op);
    ExactCovers("file-ioctl", op);
  }

  lemma ClauseMeans(path: string, a: Access)
    ensures IsFilter(Literally(path)) && Selects(Literally(path), a) == (path == a.path)
    ensures IsFilter(Subpath(path)) && Selects(Subpath(path), a) == Under(path, a.path)
    ensures !IsFilter(Message(path))
  {
    assert "literal"[0] == 'l' && "subpath"[0] == 's';
    assert Literally(path).words[0] == "literal" && Subpath(path).words[0] == "subpath";
  }

  lemma TargetMeans(a: Access)
    ensures IsFilter(SAME_SANDBOX) && Selects(SAME_SANDBOX, a) == a.sameSandbox
  {
    assert SAME_SANDBOX.words[0][0] == 't' && "with"[0] == 'w' && "vnode-type"[0] == 'v';
  }

  lemma ServiceMeans(name: string, a: Access)
    ensures IsFilter(GlobalName(name)) && Selects(GlobalName(name), a) == (name == a.service)
  {
    assert GlobalName(name).words[0][0] == 'g' && "literal"[0] == 'l' && "subpath"[0] == 's' && "regex"[0] == 'r';
  }

  lemma AllowMatches(op: string, c: Clause, a: Access)
    requires IsFilter(c)
    ensures Matches(Allow(op, [c]), a) == (Covers(op, a.op) && Selects(c, a))
  {
    hide Covers, Selects, IsFilter;
    var f := Allow(op, [c]);
    assert f.words[1] == op && f.clauses[0] == c;
  }

  lemma PlainMatches(op: string, a: Access)
    ensures Matches(Allow(op, []), a) == Covers(op, a.op)
  {
    hide Covers, Selects, IsFilter;
    assert Allow(op, []).words[1] == op;
  }

  lemma DenyMatches(op: string, c: Clause, tag: string, a: Access)
    requires IsFilter(c)
    ensures Matches(Deny(op, [c], tag), a) == (Covers(op, a.op) && Selects(c, a))
  {
    ClauseMeans(tag, a);
    hide Covers, Selects, IsFilter, Message;
    var f := Deny(op, [c], tag);
    assert f.words[1] == op && f.clauses[0] == c && f.clauses[1] == Message(tag);
  }

  /** The operations the device rules name. */
  predicate OnDevice(op: string) {
    IsRead(op) || op == "file-write-data" || op == "file-ioctl"
  }

  lemma DeviceMatches(c: Clause, a: Access)
    requires IsFilter(c)
    ensures Matches(DeviceUse(c), a) == (OnDevice(a.op) && Selects(c, a))
  {
    StarredCovers(a.op);
    FileCovers(a.op);
    hide Covers, Selects, IsFilter, IsRead;
    var f := DeviceUse(c);
    assert f.clauses[0] == c;
    assert f.words[1] == "file-read*" && f.words[2] == "file-write-data" && f.words[3] == "file-ioctl";
  }

  // ---- What each section matches ----

  lemma PlainRule(op: string, a: Access)
    requires op != "" && op[|op| - 1] != '*' && op[0] != 'd'
    ensures AnyMatch([Allow(op, [])], a) == (a.op == op)
  {
    assert "default"[0] == 'd';
    ExactCovers(op, a.op);
    PlainMatches(op, a);
    AnyMatchOne(Allow(op, []), a);
  }

  lemma InwardRule(op: string, a: Access)
    requires op != "" && op[|op| - 1] != '*' && op[0] != 'd'
    ensures AnyMatch([Allow(op, [SAME_SANDBOX])], a) == (a.op == op && a.sameSandbox)
  {
    assert "default"[0] == 'd';
    ExactCovers(op, a.op);
    TargetMeans(a);
    hide Covers, Selects, SAME_SANDBOX, IsFilter, AnyMatch, Matches;
    AllowMatches(op, SAME_SANDBOX, a);
    AnyMatchOne(Allow(op, [SAME_SANDBOX]), a);
  }

  lemma ProcessRules(a: Access)
    ensures AnyMatch([Allow("process-fork", []), Allow("process-exec", [])], a) ==
      (a.op == "process-fork" || a.op == "process-exec")
  {
    PlainRule("process-fork", a);
    PlainRule("process-exec", a);
    hide AnyMatch, Allow;
    AnyMatchAppend([Allow("process-fork", [])], [Allow("process-exec", [])], a);
    assert [Allow("process-fork", [])] + [Allow("process-exec", [])] ==
      [Allow("process-fork", []), Allow("process-exec", [])];
  }

  lemma InwardRules(a: Access)
    ensures AnyMatch([Allow("process-info*", [SAME_SANDBOX]), Allow("signal", [SAME_SANDBOX]),
      Allow("mach-priv-task-port", [SAME_SANDBOX])], a) == (IsInward(a.op) && a.sameSandbox)
  {
    InwardRule("signal", a);
    InwardRule("mach-priv-task-port", a);
    StarredCovers(a.op);
    TargetMeans(a);
    hide Covers, Selects, SAME_SANDBOX, IsFilter, AnyMatch, Matches, StartsWith;
    AllowMatches("process-info*", SAME_SANDBOX, a);
    var x, y, z := Allow("process-info*", [SAME_SANDBOX]), Allow("signal", [SAME_SANDBOX]),
      Allow("mach-priv-task-port", [SAME_SANDBOX]);
    AnyMatchOne(x, a);
    AnyMatchAppend([x], [y], a);
    AnyMatchAppend([x] + [y], [z], a);
    assert [x] + [y] + [z] == [x, y, z];
  }

  lemma FreeRules(a: Access)
    ensures AnyMatch([Allow("sysctl-read", []), Allow("ipc-posix-shm", []), Allow("ipc-posix-sem", []),
      Allow("user-preference-read", []), Allow("network*", []), Allow("system-socket", [])], a) ==
      (IsFree(a.op) && a.op != "process-fork")
  {
    PlainRule("sysctl-read", a);
    PlainRule("ipc-posix-shm", a);
    PlainRule("ipc-posix-sem", a);
    PlainRule("user-preference-read", a);
    PlainRule("system-socket", a);
    StarredCovers(a.op);
    PlainMatches("network*", a);
    assert "process-fork"[0] == 'p' && "sysctl-read"[0] == 's' && "ipc-posix-shm"[0] == "ipc-posix-sem"[0] == 'i' &&
      "user-preference-read"[0] == 'u' && "network"[0] == 'n' && "system-socket"[0] == 's';
    assert StartsWith(a.op, "network") ==> a.op[0] == 'n';
    var u, v, w, x, y, z := Allow("sysctl-read", []), Allow("ipc-posix-shm", []), Allow("ipc-posix-sem", []),
      Allow("user-preference-read", []), Allow("network*", []), Allow("system-socket", []);
    hide AnyMatch, Matches, Covers, StartsWith;
    AnyMatchOne(y, a);
    AnyMatchAppend([u], [v], a);
    AnyMatchAppend([u] + [v], [w], a);
    AnyMatchAppend([u] + [v] + [w], [x], a);
    AnyMatchAppend([u] + [v] + [w] + [x], [y], a);
    AnyMatchAppend([u] + [v] + [w] + [x] + [y], [z], a);
    assert [u] + [v] + [w] + [x] + [y] + [z] == [u, v, w, x, y, z];
  }

  lemma BasicsMatch(a: Access)
    ensures AnyMatch(BASICS, a) == (IsFree(a.op) || a.op == "process-exec" || (IsInward(a.op) && a.sameSandbox))
  {
    ProcessRules(a);
    InwardRules(a);
    FreeRules(a);
    hide AnyMatch, IsFree, IsInward, SAME_SANDBOX;
    AnyMatchAppend(BASICS[..2], BASICS[2..5], a);
    AnyMatchAppend(BASICS[..5], BASICS[5..], a);
    assert BASICS[..2] + BASICS[2..5] == BASICS[..5] && BASICS[..5] + BASICS[5..] == BASICS;
    assert BASICS[..2] == [Allow("process-fork", []), Allow("process-exec", [])];
    assert BASICS[2..5] == [Allow("process-info*", [SAME_SANDBOX]), Allow("signal", [SAME_SANDBOX]),
      Allow("mach-priv-task-port", [SAME_SANDBOX])];
    assert BASICS[5..] == [Allow("sysctl-read", []), Allow("ipc-posix-shm", []), Allow("ipc-posix-sem", []),
      Allow("user-preference-read", []), Allow("network*", []), Allow("system-socket", [])];
    ForkIsFree(a.op);
  }

  lemma ForkIsFree(op: string)
    ensures op == "process-fork" ==> IsFree(op)
  {
  }

  lemma LookupMatches(names: seq<string>, a: Access)
    requires names != []
    ensures Matches(MachLookup(names), a) == (a.op == "mach-lookup" && a.service in names)
  {
    var f := MachLookup(names);
    assert "default"[0] == 'd';
    ExactCovers("mach-lookup", a.op);
    hide Covers, Selects, IsFilter, GlobalName;
    assert f.words[1] == "mach-lookup";
    forall i | 0 <= i < |names|
      ensures IsFilter(f.clauses[i]) && Selects(f.clauses[i], a) == (names[i] == a.service)
    {
      ServiceMeans(names[i], a);
    }
    assert IsFilter(f.clauses[0]);
    if a.service in names {
      var i :| 0 <= i < |names| && names[i] == a.service;
      assert IsFilter(f.clauses[i]) && Selects(f.clauses[i], a);
    }
  }

  lemma ServicesListed(name: string)
    ensures name in MACH_NAMES <==> IsService(name)
  {
    var m := MACH_NAMES;
    assert m[0] in m && m[1] in m && m[2] in m && m[3] in m && m[4] in m && m[5] in m && m[6] in m && m[7] in m;
  }

  lemma DevicesListed(path: string)
    ensures path in DEVICES || IsTerminal(path) || Under("/dev/fd", path) <==> IsDevice(path)
  {
    hide IsTerminal, Under;
    var d := DEVICES;
    assert d[0] in d && d[1] in d && d[2] in d && d[3] in d && d[4] in d;
  }

  lemma DevicesMatch(a: Access)
    ensures AnyMatch(DeviceSection(), a) == (OnDevice(a.op) && IsDevice(a.path))
  {
    hide Matches, Under, IsTerminal, OnDevice;
    DevicesListed(a.path);
    AnyMatchAppend(Each(DEVICES, DeviceForms), TERMINALS, a);
    AnyMatchEach(DEVICES, DeviceForms, a);
    forall i | 0 <= i < |DEVICES| ensures AnyMatch(DeviceForms(DEVICES[i]), a) == (OnDevice(a.op) &&
      a.path == DEVICES[i]) {
      ClauseMeans(DEVICES[i], a);
      DeviceMatches(Literally(DEVICES[i]), a);
      AnyMatchOne(DeviceUse(Literally(DEVICES[i])), a);
    }
    hide IsDevice, DEVICES;
    TerminalsMatch(a);
  }

  lemma TerminalsMatch(a: Access)
    ensures AnyMatch(TERMINALS, a) == (OnDevice(a.op) && (IsTerminal(a.path) || Under("/dev/fd", a.path)))
  {
    var tty, fd := Clause(["regex"], Regex(TTY_PATTERN)), Subpath("/dev/fd");
    ClauseMeans("/dev/fd", a);
    assert tty.words[0] == "regex" && |"regex"| == 5;
    assert IsFilter(tty) && Selects(tty, a) == IsTerminal(a.path);
    DeviceMatches(tty, a);
    DeviceMatches(fd, a);
    hide Matches, Selects, Under, IsTerminal;
    AnyMatchOne(DeviceUse(tty), a);
    AnyMatchOne(DeviceUse(fd), a);
    AnyMatchAppend([DeviceUse(tty)], [DeviceUse(fd)], a);
    assert TERMINALS == [DeviceUse(tty)] + [DeviceUse(fd)];
  }

  /** Read grants: each one matches the reads below its path. */
  lemma ReadsUnderMatch(paths: seq<string>, a: Access)
    ensures AnyMatch(Each(paths, ReadGrant), a) == (IsRead(a.op) && UnderAny(paths, a.path))
  {
    hide Matches, AnyMatch, Under;
    AnyMatchEach(paths, ReadGrant, a);
    forall i | 0 <= i < |paths|
      ensures AnyMatch(ReadGrant(paths[i]), a) == (IsRead(a.op) && Under(paths[i], a.path))
    {
      ReadUnderMatches(paths[i], a);
      AnyMatchOne(ReadUnder(paths[i]), a);
    }
  }

  lemma ReadUnderMatches(path: string, a: Access)
    ensures Matches(ReadUnder(path), a) == (IsRead(a.op) && Under(path, a.path))
  {
    hide Matches, Covers, Selects, IsFilter, Under;
    ClauseMeans(path, a);
    StarredCovers(a.op);
    AllowMatches("file-read*", Subpath(path), a);
  }

  lemma WriteUnderMatches(path: string, a: Access)
    ensures Matches(WriteUnder(path), a) == (IsWrite(a.op) && Under(path, a.path))
  {
    hide Matches, Covers, Selects, IsFilter, Under;
    ClauseMeans(path, a);
    StarredCovers(a.op);
    AllowMatches("file-write*", Subpath(path), a);
  }

  lemma ReadLiterallyMatches(path: string, a: Access)
    ensures Matches(Allow("file-read*", [Literally(path)]), a) == (IsRead(a.op) && path == a.path)
  {
    hide Matches, Covers, Selects, IsFilter, Under;
    ClauseMeans(path, a);
    StarredCovers(a.op);
    AllowMatches("file-read*", Literally(path), a);
  }

  lemma MetadataMatches(kind: string, a: Access)
    requires kind == "DIRECTORY" || kind == "SYMLINK"
    ensures Matches(Allow("file-read-metadata", [Clause(["vnode-type", kind], NoArg)]), a) ==
      (a.op == "file-read-metadata" && (if kind == "SYMLINK" then a.vnode.Symlink? else a.vnode.Directory?))
  {
    var c := Clause(["vnode-type", kind], NoArg);
    assert "with"[0] == 'w' && c.words[0][0] == 'v' && c.words[1] == kind;
    assert "DIRECTORY"[0] == 'D' && "SYMLINK"[0] == 'S';
    FileCovers(a.op);
    AllowMatches("file-read-metadata", c, a);
  }

  lemma ReadFixesMatch(a: Access)
    ensures AnyMatch(READ_FIXES, a) ==
      ((IsRead(a.op) && a.path == "/") || (a.op == "file-read-metadata" && (a.vnode.Directory? || a.vnode.Symlink?)))
  {
    ReadLiterallyMatches("/", a);
    MetadataMatches("DIRECTORY", a);
    MetadataMatches("SYMLINK", a);
    hide Matches;
    var fs := READ_FIXES;
    assert "DIRECTORY"[0] == 'D' && "SYMLINK"[0] == 'S';
    assert AnyMatch(fs, a) == (Matches(fs[0], a) || Matches(fs[1], a) || Matches(fs[2], a));
  }

  ghost predicate ReadsAllowed(spec: ProfileSpec, a: Access) {
    (a.op == "file-read-metadata" && (a.vnode.Directory? || a.vnode.Symlink?)) ||
    (IsRead(a.op) && (IsRuntime(a.path) || (spec.workspaceRead && Under(spec.workspace, a.path)) ||
                      UnderAny(spec.readOnly, a.path)))
  }

  lemma RootsListed(path: string)
    ensures path == "/" || path == XCODE_LINK || UnderAny(RUNTIME_READ_ROOTS, path) <==> IsRuntime(path)
  {
    hide Under;
    var r := RUNTIME_READ_ROOTS;
    assert UnderAny(r, path) ==
      (Under(r[0], path) || Under(r[1], path) || Under(r[2], path) || Under(r[3], path) || Under(r[4], path));
  }

  lemma ReadSectionMatch(spec: ProfileSpec, a: Access)
    ensures AnyMatch(ReadSection(spec), a) == ReadsAllowed(spec, a)
  {
    hide Matches, AnyMatch, Under, Each;
    var xcode := Allow("file-read*", [Literally(XCODE_LINK)]);
    RootsListed(a.path);
    ReadFixesMatch(a);
    ReadsUnderMatch(RUNTIME_READ_ROOTS, a);
    ReadLiterallyMatches(XCODE_LINK, a);
    AnyMatchOne(xcode, a);
    AnyMatchAppend(READ_FIXES, Each(RUNTIME_READ_ROOTS, ReadGrant), a);
    AnyMatchAppend(READ_FIXES + Each(RUNTIME_READ_ROOTS, ReadGrant), [xcode], a);
    var own := WorkspaceReads(spec) + spec.readOnly;
    ReadsUnderMatch(own, a);
    AnyMatchAppend(FixedReads(), Each(own, ReadGrant), a);
    UnderAnyAppend(WorkspaceReads(spec), spec.readOnly, a.path);
    assert UnderAny([spec.workspace], a.path) == Under(spec.workspace, a.path) by {
      assert [spec.workspace][0] == spec.workspace;
    }
  }

  lemma UnderAnyAppend(x: seq<string>, y: seq<string>, path: string)
    ensures UnderAny(x + y, path) == (UnderAny(x, path) || UnderAny(y, path))
  {
    hide Under;
    var z := x + y;
    assert forall i :: 0 <= i < |x| ==> z[i] == x[i];
    assert forall i :: 0 <= i < |y| ==> z[|x| + i] == y[i];
    assert forall i :: |x| <= i < |z| ==> z[i] == y[i - |x|];
  }

  ghost predicate GrantsAllowed(spec: ProfileSpec, a: Access) {
    ((IsRead(a.op) || IsWrite(a.op)) && UnderAny(spec.readWrite, a.path)) ||
    (IsWrite(a.op) && spec.workspaceRead && spec.workspaceWrite && Under(spec.workspace, a.path))
  }

  lemma WriteSectionMatch(spec: ProfileSpec, a: Access)
    ensures AnyMatch(WriteSection(spec), a) == GrantsAllowed(spec, a)
  {
    hide Matches, AnyMatch, Under, Each;
    AnyMatchAppend(WorkspaceWrites(spec), Each(spec.readWrite, ReadWriteGrant), a);
    NoneMatch(a);
    WriteUnderMatches(spec.workspace, a);
    AnyMatchOne(WriteUnder(spec.workspace), a);
    AnyMatchEach(spec.readWrite, ReadWriteGrant, a);
    forall i | 0 <= i < |spec.readWrite|
      ensures AnyMatch(ReadWriteGrant(spec.readWrite[i]), a) == ((IsRead(a.op) || IsWrite(a.op)) &&
        Under(spec.readWrite[i], a.path))
    {
      ReadWriteMatches(spec.readWrite[i], a);
    }
  }

  lemma ReadWriteMatches(path: string, a: Access)
    ensures AnyMatch(ReadWriteGrant(path), a) == ((IsRead(a.op) || IsWrite(a.op)) && Under(path, a.path))
  {
    hide Matches, AnyMatch, Under;
    ReadUnderMatches(path, a);
    WriteUnderMatches(path, a);
    AnyMatchOne(ReadUnder(path), a);
    AnyMatchOne(WriteUnder(path), a);
    AnyMatchAppend([ReadUnder(path)], [WriteUnder(path)], a);
    assert ReadWriteGrant(path) == [ReadUnder(path)] + [WriteUnder(path)];
  }

  lemma DenyFormsMatch(path: string, tag: string, a: Access)
    ensures AnyMatch(DenyWriteForms(tag)(path), a) == (IsWrite(a.op) && Under(path, a.path))
    ensures AnyMatch(DenyExecForms(tag)(path), a) == (StartsWith(a.op, "process-exec") && path == a.path)
  {
    hide Matches, AnyMatch, Under, Covers, Selects, IsFilter;
    ClauseMeans(path, a);
    StarredCovers(a.op);
    DenyMatches("file-write*", Subpath(path), tag, a);
    DenyMatches("process-exec*", Literally(path), tag, a);
    AnyMatchOne(Deny("file-write*", [Subpath(path)], tag), a);
    AnyMatchOne(Deny("process-exec*", [Literally(path)], tag), a);
  }

  lemma DenySectionMatch(spec: ProfileSpec, a: Access)
    ensures AnyMatch(DenySection(spec), a) ==
      ((IsWrite(a.op) && UnderAny(spec.denyWrite, a.path)) ||
        (StartsWith(a.op, "process-exec") && a.path in spec.denyExec))
  {
    hide AnyMatch, Under, Each, DenyWriteForms, DenyExecForms;
    var w, x := DenyWriteForms(spec.logTag), DenyExecForms(spec.logTag);
    AnyMatchAppend(Each(spec.denyWrite, w), Each(spec.denyExec, x), a);
    AnyMatchEach(spec.denyWrite, w, a);
    AnyMatchEach(spec.denyExec, x, a);
    forall path ensures AnyMatch(w(path), a) == (IsWrite(a.op) && Under(path, a.path)) {
      DenyFormsMatch(path, spec.logTag, a);
    }
    forall path ensures AnyMatch(x(path), a) == (StartsWith(a.op, "process-exec") && path == a.path) {
      DenyFormsMatch(path, spec.logTag, a);
    }
  }

  // ---- The profile means the access function ----

  lemma AllowSectionMatch(spec: ProfileSpec, a: Access)
    ensures AnyMatch(AllowSection(spec), a) ==
      (IsFree(a.op) || a.op == "process-exec" || (IsInward(a.op) && a.sameSandbox) ||
       (a.op == "mach-lookup" && IsService(a.service)) || (OnDevice(a.op) && IsDevice(a.path)) ||
       ReadsAllowed(spec, a) || GrantsAllowed(spec, a))
  {
    hide Matches, AnyMatch, IsDevice, ReadsAllowed, GrantsAllowed, DeviceSection, ReadSection, WriteSection, MachLookup,
      IsFree, IsInward, IsService, OnDevice;
    var mach := [MachLookup(MACH_NAMES)];
    BasicsMatch(a);
    LookupMatches(MACH_NAMES, a);
    ServicesListed(a.service);
    AnyMatchOne(MachLookup(MACH_NAMES), a);
    DevicesMatch(a);
    ReadSectionMatch(spec, a);
    WriteSectionMatch(spec, a);
    hide MACH_NAMES, BASICS;
    AnyMatchAppend(BASICS, mach, a);
    AnyMatchAppend(BASICS + mach, DeviceSection(), a);
    AnyMatchAppend(BASICS + mach + DeviceSection(), ReadSection(spec), a);
    AnyMatchAppend(BASICS + mach + DeviceSection() + ReadSection(spec), WriteSection(spec), a);
  }

  /** The operations that can be denied again are no others. */
  lemma OperationsApart(op: string)
    ensures IsWrite(op) ==>
      !IsRead(op) && op != "file-ioctl" && op != "process-exec" && !IsFree(op) && !IsInward(op) &&
        op != "mach-lookup" &&
      op != "file-read-metadata"
    ensures StartsWith(op, "process-exec") ==>
      !IsRead(op) && !IsWrite(op) && op != "file-ioctl" && !IsFree(op) && !IsInward(op) && op != "mach-lookup" &&
      op != "file-read-metadata" && op != "file-write-data"
    ensures IsWrite("file-write-data") && IsRead("file-read-metadata") && StartsWith("process-exec", "process-exec")
  {
    if IsWrite(op) {
      Letters(op, "file-write");
      assert op[0] == 'f' && op[5] == 'w';
    }
    if StartsWith(op, "process-exec") {
      Letters(op, "process-exec");
      assert op[0] == 'p' && op[8] == 'e';
    }
  }

  lemma Letters(op: string, stem: string)
    requires StartsWith(op, stem)
    ensures |op| >= |stem| && forall i :: 0 <= i < |stem| ==> op[i] == stem[i]
  {
  }

  predicate AllAllow(fs: seq<Form>, allow: bool) {
    forall i :: 0 <= i < |fs| ==> IsAllow(fs[i]) == allow
  }

  lemma {:induction false} EachAllow(paths: seq<string>, f: string -> seq<Form>, allow: bool)
    requires forall path :: AllAllow(f(path), allow)
    ensures AllAllow(Each(paths, f), allow)
  {
    if paths != [] {
      EachAllow(paths[..|paths| - 1], f, allow);
      assert AllAllow(f(paths[|paths| - 1]), allow);
    }
  }

  lemma AllowSectionAllows(spec: ProfileSpec)
    ensures AllAllow(AllowSection(spec), true)
  {
    EachAllow(DEVICES, DeviceForms, true);
    EachAllow(RUNTIME_READ_ROOTS, ReadGrant, true);
    EachAllow(WorkspaceReads(spec) + spec.readOnly, ReadGrant, true);
    EachAllow(spec.readWrite, ReadWriteGrant, true);
    hide Each;
    assert AllAllow(BASICS, true);
    assert AllAllow(READ_FIXES, true);
    assert AllAllow(TERMINALS, true);
    assert AllAllow(DeviceSection(), true);
    assert AllAllow(ReadSection(spec), true);
  }

  lemma DenySectionDenies(spec: ProfileSpec)
    ensures AllAllow(DenySection(spec), false)
  {
    assert "deny"[0] == 'd' && "allow"[0] == 'a';
    assert forall path, tag :: AllAllow(DenyWriteForms(tag)(path), false);
    assert forall path, tag :: AllAllow(DenyExecForms(tag)(path), false);
    EachAllow(spec.denyWrite, DenyWriteForms(spec.logTag), false);
    EachAllow(spec.denyExec, DenyExecForms(spec.logTag), false);
  }

  lemma HeadDenies(tag: string, a: Access)
    ensures !Permits(HeadForms(tag), a)
  {
    var fs := HeadForms(tag);
    FileCovers(a.op);
    ClauseMeans(tag, a);
    assert "deny"[0] == 'd' && "allow"[0] == 'a';
    assert fs[1].words[0] == "deny" && fs[1].words[1] == "default";
    hide Covers, Selects, IsFilter;
    assert fs[1].clauses == [Message(tag)];
    assert Matches(fs[1], a);
  }

  /** The profile permits exactly what the spec grants, for lists of any length. */
  lemma ProfileMeansGranted(spec: ProfileSpec, a: Access)
    ensures Permits(Profile(spec), a) == Granted(spec, a)
  {
    hide AnyMatch, Permits, IsAllow, AllowSection, DenySection, Under, UnderAny, IsDevice, IsFree, IsInward, IsService,
      IsRead, IsWrite, IsRuntime, StartsWith;
    OperationsApart(a.op);
    HeadDenies(spec.logTag, a);
    AllowSectionMatch(spec, a);
    AllowSectionAllows(spec);
    DenySectionMatch(spec, a);
    DenySectionDenies(spec);
    PermitsBlock(HeadForms(spec.logTag), AllowSection(spec), true, a);
    PermitsBlock(HeadForms(spec.logTag) + AllowSection(spec), DenySection(spec), false, a);
  }
}
