/** String primitives the source takes from Rust's `str`: `find`, `contains`, `trim`. */
module Text {
  import opened Wrappers

  /** The Unicode `White_Space` property, which `char::is_whitespace` and `str::trim` test. */
  predicate IsWhitespace(c: char) {
    var n := c as int;
    9 <= n <= 13 || n == 0x20 || n == 0x85 || n == 0xA0 || n == 0x1680 || 0x2000 <= n <= 0x200A ||
    n == 0x2028 || n == 0x2029 || n == 0x202F || n == 0x205F || n == 0x3000
  }

  /** All of `s[i..j]` is whitespace. */
  predicate White(s: string, i: int, j: int) {
    0 <= i && j <= |s| && forall k :: i <= k < j ==> IsWhitespace(s[k])
  }

  predicate Blank(s: string) {
    White(s, 0, |s|)
  }

  /** The first position from `i` on that is not whitespace. */
  function SkipLeft(s: string, i: nat): (k: nat)
    requires i <= |s|
    ensures i <= k <= |s| && White(s, i, k) && (k < |s| ==> !IsWhitespace(s[k]))
    decreases |s| - i
  {
    if i < |s| && IsWhitespace(s[i]) then SkipLeft(s, i + 1) else i
  }

  /** The position just behind the last non-whitespace character of `s[lo..j]`. */
  function SkipRight(s: string, lo: nat, j: nat): (k: nat)
    requires lo <= j <= |s|
    ensures lo <= k <= j && White(s, k, j) && (lo < k ==> !IsWhitespace(s[k - 1]))
    decreases j
  {
    if lo < j && IsWhitespace(s[j - 1]) then SkipRight(s, lo, j - 1) else j
  }

  function TrimStart(s: string): string {
    s[SkipLeft(s, 0)..]
  }

  function TrimEnd(s: string): string {
    s[..SkipRight(s, 0, |s|)]
  }

  function Trim(s: string): string {
    var lo := SkipLeft(s, 0);
    s[lo..SkipRight(s, lo, |s|)]
  }

  /** `pat` stands at position `i` of `s`. */
  predicate Occurs(s: string, pat: string, i: int) {
    0 <= i <= |s| - |pat| && forall k :: 0 <= k < |pat| ==> s[i + k] == pat[k]
  }

  function FindFrom(s: string, pat: string, from: nat): (r: Option<nat>)
    requires from <= |s|
    ensures r.Some? ==> from <= r.value && Occurs(s, pat, r.value)
    ensures forall k :: from <= k < (if r.Some? then r.value else |s| + 1) ==> !Occurs(s, pat, k)
    decreases |s| - from
  {
    if Occurs(s, pat, from) then Some(from)
    else if from == |s| then None
    else FindFrom(s, pat, from + 1)
  }

  /** `str::find`: the first occurrence. */
  function Find(s: string, pat: string): (r: Option<nat>)
    ensures r.Some? ==> Occurs(s, pat, r.value)
    ensures forall k :: 0 <= k < (if r.Some? then r.value else |s| + 1) ==> !Occurs(s, pat, k)
  {
    FindFrom(s, pat, 0)
  }

  predicate Contains(s: string, pat: string) {
    Find(s, pat).Some?
  }

  // ---- Facts about trimming ----

  /** `s[lo..hi]` has no outer whitespace left and only whitespace around it. */
  predicate Core(s: string, lo: int, hi: int) {
    0 <= lo < hi <= |s| && White(s, 0, lo) && White(s, hi, |s|) && !IsWhitespace(s[lo]) && !IsWhitespace(s[hi - 1])
  }

  lemma TrimExact(s: string, lo: nat, hi: nat)
    requires Core(s, lo, hi)
    ensures Trim(s) == s[lo..hi]
  {
  }

  lemma TrimBlank(s: string)
    requires Blank(s)
    ensures Trim(s) == ""
  {
  }

  /** Where `Trim` cuts. */
  lemma TrimCore(s: string) returns (lo: nat, hi: nat)
    requires !Blank(s)
    ensures Core(s, lo, hi) && Trim(s) == s[lo..hi]
  {
    lo := SkipLeft(s, 0);
    hi := SkipRight(s, lo, |s|);
  }

  lemma TrimFramed(a: string, mid: string, b: string)
    requires Blank(a) && Blank(b)
    ensures Trim(a + mid + b) == Trim(mid)
  {
    hide Trim;
    var s := a + mid + b;
    if Blank(mid) {
      assert Blank(s) by {
        assert forall k :: |a| <= k < |a| + |mid| ==> s[k] == mid[k - |a|];
      }
      TrimBlank(s);
      TrimBlank(mid);
    } else {
      var lo, hi := TrimCore(mid);
      FramedCore(a, mid, b, lo, hi);
      TrimExact(s, |a| + lo, |a| + hi);
      assert s[|a| + lo..|a| + hi] == mid[lo..hi];
    }
  }

  lemma FramedCore(a: string, mid: string, b: string, lo: nat, hi: nat)
    requires Blank(a) && Blank(b) && Core(mid, lo, hi)
    ensures Core(a + mid + b, |a| + lo, |a| + hi)
  {
    var s := a + mid + b;
    assert forall k :: |a| <= k < |a| + |mid| ==> s[k] == mid[k - |a|];
    assert White(s, 0, |a| + lo);
    assert White(s, |a| + hi, |s|);
  }

  /** A trimmed text has no trailing blanks. */
  lemma TrimmedEnd(s: string)
    ensures TrimEnd(Trim(s)) == Trim(s)
  {
    if Blank(s) {
      TrimBlank(s);
    } else {
      var lo, hi := TrimCore(s);
      assert !IsWhitespace(Trim(s)[hi - lo - 1]);
    }
  }

  lemma TrimTwice(s: string)
    ensures Trim(Trim(s)) == Trim(s)
  {
    if Blank(s) {
      TrimBlank(s);
    } else {
      var lo, hi := TrimCore(s);
      TrimExact(Trim(s), 0, hi - lo);
    }
  }

  /** Text that a marker precedes trims to something longer than the text alone. */
  lemma TrimLonger(u: string, m: string, w: string)
    requires m != "" && !IsWhitespace(m[0]) && !IsWhitespace(m[|m| - 1])
    ensures |Trim(u + (m + w))| >= |m| + |Trim(w)|
  {
    var s := u + (m + w);
    assert s[|u|] == m[0] && s[|u| + |m| - 1] == m[|m| - 1];
    var lo, hi := TrimCore(s);
    if Blank(w) {
      TrimBlank(w);
    } else {
      var lo', hi' := TrimCore(w);
      assert s[|u| + |m| + hi' - 1] == w[hi' - 1];
    }
  }

  // ---- Facts about searching ----

  /** The first letter of the pattern does not come back inside it. */
  predicate UniqueHead(pat: string) {
    pat != "" && forall i :: 0 < i < |pat| ==> pat[i] != pat[0]
  }

  lemma FirstAt(s: string, pat: string, k: nat)
    requires Occurs(s, pat, k) && forall i :: 0 <= i < k ==> !Occurs(s, pat, i)
    ensures Find(s, pat) == Some(k)
  {
  }

  /** A pattern appended to a text without it is found where it was appended. */
  lemma FindAfter(before: string, pat: string, after: string)
    requires UniqueHead(pat) && !Contains(before, pat)
    ensures Find(before + (pat + after), pat) == Some(|before|)
  {
    var s := before + (pat + after);
    forall i | 0 <= i < |before| ensures !Occurs(s, pat, i) {
      if i + |pat| <= |before| {
        assert !Occurs(before, pat, i);
        var k :| 0 <= k < |pat| && before[i + k] != pat[k];
        assert s[i + k] == before[i + k];
      } else {
        assert s[i + (|before| - i)] == pat[0] && pat[|before| - i] != pat[0];
      }
    }
    FirstAt(s, pat, |before|);
  }

  /** Text appended behind an occurrence does not change which one is first. */
  lemma FindWithin(before: string, pat: string, after: string)
    requires Contains(before, pat)
    ensures Find(before + after, pat) == Find(before, pat)
  {
    var s, k := before + after, Find(before, pat).value;
    forall i | 0 <= i < k ensures !Occurs(s, pat, i) {
      assert !Occurs(before, pat, i);
      var j :| 0 <= j < |pat| && before[i + j] != pat[j];
      assert s[i + j] == before[i + j];
    }
    FirstAt(s, pat, k);
  }

  lemma OccursContains(s: string, pat: string, k: nat)
    requires Occurs(s, pat, k)
    ensures Contains(s, pat)
  {
  }

  lemma PartLacks(s: string, lo: nat, hi: nat, pat: string)
    requires lo <= hi <= |s| && !Contains(s, pat)
    ensures !Contains(s[lo..hi], pat)
  {
    var part := s[lo..hi];
    forall k | 0 <= k <= |part| - |pat| ensures !Occurs(part, pat, k) {
      assert !Occurs(s, pat, lo + k);
      var j :| 0 <= j < |pat| && s[lo + k + j] != pat[j];
      assert part[k + j] == s[lo + k + j];
    }
  }

  lemma FramedPlace(pre: string, mid: string, post: string, pat: string, k: nat)
    requires pat != "" && pat[0] !in pre && forall i :: 0 <= i < |post| ==> post[i] !in pat
    requires Occurs(pre + mid + post, pat, k)
    ensures k >= |pre| && Occurs(mid, pat, k - |pre|)
  {
    var s := pre + mid + post;
    assert s[k + 0] == pat[0];
    assert s[k + (|pat| - 1)] == pat[|pat| - 1];
    assert forall i :: 0 <= i < |pre| ==> s[i] == pre[i];
    assert forall i :: |pre| + |mid| <= i < |s| ==> s[i] == post[i - |pre| - |mid|];
    assert k >= |pre| && k + |pat| <= |pre| + |mid|;
    forall i | 0 <= i < |pat| ensures mid[k - |pre| + i] == pat[i] {
      assert s[k + i] == pat[i];
    }
  }

  /** A frame that shares no first letter in front and no letter behind adds no occurrence. */
  lemma FramedContains(pre: string, mid: string, post: string, pat: string)
    requires pat != "" && pat[0] !in pre && forall i :: 0 <= i < |post| ==> post[i] !in pat
    ensures Contains(pre + mid + post, pat) == Contains(mid, pat)
  {
    var s := pre + mid + post;
    if Contains(s, pat) {
      var k := Find(s, pat).value;
      FramedPlace(pre, mid, post, pat, k);
      OccursContains(mid, pat, k - |pre|);
    }
    if Contains(mid, pat) {
      var k := Find(mid, pat).value;
      forall i | 0 <= i < |pat| ensures s[|pre| + k + i] == pat[i] {
        assert mid[k + i] == pat[i];
      }
      OccursContains(s, pat, |pre| + k);
    }
  }

  // ---- Texts put together ----

  function Concat(parts: seq<string>): string {
    if parts == [] then "" else parts[0] + Concat(parts[1..])
  }

  lemma ConcatCons(part: string, parts: seq<string>)
    ensures Concat([part] + parts) == part + Concat(parts)
  {
    assert ([part] + parts)[1..] == parts;
  }

  lemma ConcatOne(part: string)
    ensures Concat([part]) == part
  {
    assert [part][1..] == [];
    assert part + "" == part;
  }
}
