/** Bracket depth of a prompt: the clamped running counter computes a maximum over all substrings. */
module Nesting {
  import opened Wrappers

  function Bracket(c: char): int {
    if c == '{' || c == '[' || c == '(' then 1 else if c == '}' || c == ']' || c == ')' then -1 else 0
  }

  function Paren(c: char): int {
    if c == '(' then 1 else if c == ')' then -1 else 0
  }

  /** Openers minus closers of `s[i..j]`. */
  function Sum(f: char -> int, s: string, i: nat, j: nat): int
    requires i <= j <= |s|
    decreases j - i
  {
    if i == j then 0 else Sum(f, s, i, j - 1) + f(s[j - 1])
  }

  /** `m` is the largest excess of openers over closers in any substring of `s[..n]`. */
  ghost predicate IsMaxSum(f: char -> int, s: string, n: nat, m: int)
    requires n <= |s|
  {
    (forall i, j :: 0 <= i <= j <= n ==> Sum(f, s, i, j) <= m) &&
      (exists i, j :: 0 <= i <= j <= n && Sum(f, s, i, j) == m)
  }

  /** `m` is the largest excess among the substrings that end at `n`. */
  ghost predicate IsMaxSuffix(f: char -> int, s: string, n: nat, m: int)
    requires n <= |s|
  {
    (forall i :: 0 <= i <= n ==> Sum(f, s, i, n) <= m) && (exists i :: 0 <= i <= n && Sum(f, s, i, n) == m)
  }

  function Clamp(n: int): int {
    if n < 0 then 0 else n
  }

  /** One character: the best suffix either grows or restarts empty. */
  lemma SuffixStep(f: char -> int, s: string, n: nat, m: int)
    requires n < |s| && IsMaxSuffix(f, s, n, m)
    ensures IsMaxSuffix(f, s, n + 1, Clamp(m + f(s[n])))
  {
    var m', end := Clamp(m + f(s[n])), n + 1;
    forall i | 0 <= i <= end ensures Sum(f, s, i, end) <= m' {
      if i <= n {
        assert Sum(f, s, i, end) == Sum(f, s, i, n) + f(s[n]);
      }
    }
    if m' == 0 {
      assert Sum(f, s, end, end) == m';
    } else {
      var i :| 0 <= i <= n && Sum(f, s, i, n) == m;
      assert Sum(f, s, i, end) == m';
    }
  }

  lemma MaxStep(f: char -> int, s: string, n: nat, best: int, m: int)
    requires n < |s| && IsMaxSum(f, s, n, best) && IsMaxSuffix(f, s, n + 1, m)
    ensures IsMaxSum(f, s, n + 1, if m > best then m else best)
  {
    if m > best {
      var i :| 0 <= i <= n + 1 && Sum(f, s, i, n + 1) == m;
    } else {
      var i, j :| 0 <= i <= j <= n && Sum(f, s, i, j) == best;
    }
  }

  /** The depth over all three bracket kinds. */
  method ComputeNestingDepth(text: string) returns (depth: u32)
    requires |text| < 0x8000_0000
    ensures IsMaxSum(Bracket, text, |text|, depth)
  {
    depth := 0;
    var current: i32 := 0;
    assert Sum(Bracket, text, 0, 0) == 0;
    for n := 0 to |text|
      invariant 0 <= current <= n && IsMaxSuffix(Bracket, text, n, current)
      invariant depth <= n && IsMaxSum(Bracket, text, n, depth)
    {
      SuffixStep(Bracket, text, n, current);
      MaxStep(Bracket, text, n, depth, Clamp(current + Bracket(text[n])));
      var c := text[n];
      if c == '{' || c == '[' || c == '(' {
        current := current + 1;
        if current > depth {
          depth := current;
        }
      } else if c == '}' || c == ']' || c == ')' {
        current := if current - 1 < 0 then 0 else current - 1;
      }
    }
  }

  /** The depth of round brackets alone. */
  method ComputeParenDepth(text: string) returns (depth: u32)
    requires |text| < 0x8000_0000
    ensures IsMaxSum(Paren, text, |text|, depth)
  {
    depth := 0;
    var current: i32 := 0;
    assert Sum(Paren, text, 0, 0) == 0;
    for n := 0 to |text|
      invariant 0 <= current <= n && IsMaxSuffix(Paren, text, n, current)
      invariant depth <= n && IsMaxSum(Paren, text, n, depth)
    {
      SuffixStep(Paren, text, n, current);
      MaxStep(Paren, text, n, depth, Clamp(current + Paren(text[n])));
      var c := text[n];
      if c == '(' {
        current := current + 1;
        if current > depth {
          depth := current;
        }
      } else if c == ')' {
        current := if current - 1 < 0 then 0 else current - 1;
      }
    }
  }
}
