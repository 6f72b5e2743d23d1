/** The effective prompt of a task: its dependencies' responses under headers, then its own body. */
module Compose {
  import opened Text

  datatype DepContext = DepContext(taskId: string, agent: string, response: string)

  const CONTEXT_OF := "## Context from @"
  const DEPENDENCY := " (dependency task `"
  const ANSWERS := "`)\n\n"
  const GAP := "\n\n"
  const RULE := "---\n\n"

  function Block(dep: DepContext): string {
    CONTEXT_OF + (dep.agent + (DEPENDENCY + (dep.taskId + (ANSWERS + (TrimEnd(dep.response) + GAP)))))
  }

  function Blocks(deps: seq<DepContext>): string {
    if deps == [] then "" else Blocks(deps[..|deps| - 1]) + Block(deps[|deps| - 1])
  }

  function Composed(body: string, deps: seq<DepContext>): string {
    if deps == [] then body else Blocks(deps) + RULE + body
  }

  method ComposeBody(body: string, deps: seq<DepContext>) returns (out: string)
    ensures out == Composed(body, deps)
  {
    if deps == [] {
      return body;
    }
    out := "";
    for i := 0 to |deps|
      invariant out == Blocks(deps[..i])
    {
      assert deps[..i + 1][..i] == deps[..i];
      var dep := deps[i];
      out := out + ("## Context from @" + (dep.agent + (" (dependency task `" + (dep.taskId + ("`)\n\n" +
        (TrimEnd(dep.response) + "\n\n"))))));
    }
    assert deps[..|deps|] == deps;
    out := out + "---\n\n";
    out := out + body;
  }

  /** A block names the agent and the task, and then holds the response without its trailing blanks. */
  lemma BlockReads(dep: DepContext)
    ensures Block(dep) == Concat(["## Context from @", dep.agent, " (dependency task `", dep.taskId, "`)\n\n",
      TrimEnd(dep.response), "\n\n"])
  {
    SevenParts(CONTEXT_OF, dep.agent, DEPENDENCY, dep.taskId, ANSWERS, TrimEnd(dep.response), GAP);
  }

  lemma SevenParts(a: string, b: string, c: string, d: string, e: string, f: string, g: string)
    ensures Concat([a, b, c, d, e, f, g]) == a + (b + (c + (d + (e + (f + g)))))
  {
    hide Concat;
    assert [a, b, c, d, e, f, g] == [a] + ([b] + ([c] + ([d] + ([e] + ([f] + [g])))));
    ConcatCons(a, [b] + ([c] + ([d] + ([e] + ([f] + [g])))));
    ConcatCons(b, [c] + ([d] + ([e] + ([f] + [g]))));
    ConcatCons(c, [d] + ([e] + ([f] + [g])));
    ConcatCons(d, [e] + ([f] + [g]));
    ConcatCons(e, [f] + [g]);
    ConcatCons(f, [g]);
    ConcatOne(g);
  }

  lemma {:induction false} BlocksSplit(deps: seq<DepContext>, i: nat)
    requires i < |deps|
    ensures Blocks(deps) == Blocks(deps[..i]) + Block(deps[i]) + Blocks(deps[i + 1..])
  {
    hide Block;
    var n := |deps| - 1;
    if i < n {
      BlocksSplit(deps[..n], i);
      assert deps[..n][..i] == deps[..i] && deps[..n][i + 1..] == deps[i + 1..][..n - i - 1];
    } else {
      assert deps[i + 1..] == [];
    }
  }

  /** Every dependency's block stands in the prompt, behind those before it and in front of those after it, and the body
      comes last. */
  lemma PromptHoldsDependency(body: string, deps: seq<DepContext>, i: nat)
    requires i < |deps|
    ensures Composed(body, deps) == Blocks(deps[..i]) + Block(deps[i]) + Blocks(deps[i + 1..]) + RULE + body
  {
    hide Block, Blocks;
    BlocksSplit(deps, i);
  }
}
