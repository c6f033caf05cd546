/** Cutting the generated Selenium script out of the model's answer: the
    body of the first ```python block, else of the first ``` block, else
    the whole answer, stripped of surrounding whitespace. */
module ScriptFence {
  import opened Text

  const Fence := "```"
  const PythonFence := "```python"

  /** The script handed back by the script endpoint for the answer `s`. */
  function ExtractScript(s: string): (r: string)
    ensures !Contains(r, Fence)
    ensures Strip(r) == r
    ensures !Contains(s, Fence) ==> r == Strip(s)
  {
    var body := FenceBody(s);
    StripAvoids(body, Fence);
    StripIdempotent(body);
    Strip(body)
  }

  /** The text the script is cut from, before stripping. */
  function FenceBody(s: string): (body: string)
    ensures !Contains(body, Fence)
    ensures !Contains(s, Fence) ==> body == s
  {
    PythonFenceIsFence(s);
    if Contains(s, PythonFence) then Before(SecondPart(s, PythonFence), Fence)
    else if Contains(s, Fence) then Before(SecondPart(s, Fence), Fence)
    else s
  }

  /** Stripping cannot create an occurrence: the strip is a slice. */
  lemma StripAvoids(s: string, pat: string)
    ensures Contains(Strip(s), pat) ==> Contains(s, pat)
  {
    var r := Strip(s);
    if Contains(r, pat) {
      ContainsInSlice(s, LeadingSpaces(s), LeadingSpaces(s) + |r|, pat);
    }
  }

  /** Every "```python" is also a "```". */
  lemma PythonFenceIsFence(s: string)
    ensures Contains(s, PythonFence) ==> Contains(s, Fence)
  {
    if Contains(s, PythonFence) {
      var i := Find(s, PythonFence).value;
      assert s[i..i + 3] == s[i..i + 9][..3];
      ContainsAt(s, Fence, i);
    }
  }

  /** Extracting from an extracted script gives it back unchanged. */
  lemma ExtractIdempotent(s: string)
    ensures ExtractScript(ExtractScript(s)) == ExtractScript(s)
  {
    var r := ExtractScript(s);
    PythonFenceIsFence(r);
  }

  /** `s[a..b]` is a fenced body: it holds no complete "```" and it ends
      where a "```" starts or at the end of the answer. */
  predicate FencedBody(s: string, a: nat, b: nat) {
    a <= b <= |s| && !Contains(s[a..b], Fence) && (b == |s| || OccursAt(s, Fence, b))
  }

  /** An occurrence in a suffix `s[a..]` is an occurrence in `s`. */
  lemma OccursInSuffix(s: string, a: nat, pat: string, i: nat)
    requires a <= |s| && OccursAt(s[a..], pat, i)
    ensures OccursAt(s, pat, a + i)
  {
    assert s[a..][i..i + |pat|] == s[a + i..a + i + |pat|];
  }

  /** An occurrence in a prefix of `t` is an occurrence in `t`. */
  lemma OccursInPrefix(x: string, t: string, pat: string, i: nat)
    requires StartsWith(t, x) && OccursAt(x, pat, i)
    ensures OccursAt(t, pat, i)
  {
    assert x[i..i + |pat|] == t[..|x|][i..i + |pat|] == t[i..i + |pat|];
  }

  /** Where an opening fence starts, a "```" starts. */
  lemma OpenIsFence(t: string, open: string, i: nat)
    requires StartsWith(open, Fence) && OccursAt(t, open, i)
    ensures OccursAt(t, Fence, i)
  {
    assert t[i..i + 3] == t[i..i + |open|][..3];
  }

  /** The body that `s.split(open)[1].split("```")[0]` picks, for an
      opening fence `open` that begins with "```" and occurs in `s`, is a
      fenced body starting right after the first `open`. */
  lemma {:induction false} SplitBody(s: string, open: string, a: nat)
    requires StartsWith(open, Fence) && Contains(s, open)
    requires a == Find(s, open).value + |open|
    ensures a + |Before(SecondPart(s, open), Fence)| <= |s|
    ensures FencedBody(s, a, a + |Before(SecondPart(s, open), Fence)|)
    ensures Before(SecondPart(s, open), Fence) == s[a..a + |Before(SecondPart(s, open), Fence)|]
  {
    var t := s[a..];
    var x := Before(t, open);
    assert x == SecondPart(s, open);
    var y := Before(x, Fence);
    var b := a + |y|;
    assert StartsWith(t, y) by {
      assert t[..|x|] == x;
      assert x[..|y|] == y;
    }
    assert s[a..b] == y;
    if y != x {
      OccursInPrefix(x, t, Fence, |y|);
      OccursInSuffix(s, a, Fence, |y|);
    } else if x != t {
      OpenIsFence(t, open, |x|);
      OccursInSuffix(s, a, Fence, |x|);
    }
  }

  /** When the answer has a "```python" block, the script is the stripped
      body right after the first "```python"; a plain "```" block is used
      only when there is no "```python" at all. */
  lemma PythonBlockFirst(s: string)
    requires Contains(s, PythonFence)
    ensures var a := Find(s, PythonFence).value + |PythonFence|;
      exists b: nat | FencedBody(s, a, b) :: ExtractScript(s) == Strip(s[a..b])
  {
    var a := Find(s, PythonFence).value + |PythonFence|;
    SplitBody(s, PythonFence, a);
    var b := a + |Before(SecondPart(s, PythonFence), Fence)|;
    assert FencedBody(s, a, b);
  }

  /** Without "```python", the script is the stripped body after the
      first "```". */
  lemma PlainBlockSecond(s: string)
    requires !Contains(s, PythonFence) && Contains(s, Fence)
    ensures var a := Find(s, Fence).value + |Fence|;
      exists b: nat | FencedBody(s, a, b) :: ExtractScript(s) == Strip(s[a..b])
  {
    var a := Find(s, Fence).value + |Fence|;
    SplitBody(s, Fence, a);
    var b := a + |Before(SecondPart(s, Fence), Fence)|;
    assert FencedBody(s, a, b);
  }
}
