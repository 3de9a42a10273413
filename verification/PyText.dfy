/** The Python string operations that the text pipeline is built from. */
module PyText {

  // The characters that str.strip, str.rstrip and str.split treat as whitespace.
  predicate IsSpace(c: char) {
    var n := c as int;
    || 0x09 <= n <= 0x0D || 0x1C <= n <= 0x20 || n == 0x85 || n == 0xA0 || n == 0x1680
    || 0x2000 <= n <= 0x200A || n == 0x2028 || n == 0x2029 || n == 0x202F || n == 0x205F || n == 0x3000
  }

  predicate StartsSolid(s: string) {
    s != "" && !IsSpace(s[0])
  }

  predicate Trimmed(s: string) {
    StartsSolid(s) && !IsSpace(s[|s| - 1])
  }

  function LStrip(s: string): string {
    if s != "" && IsSpace(s[0]) then LStrip(s[1..]) else s
  }

  function RStrip(s: string): string {
    if s != "" && IsSpace(s[|s| - 1]) then RStrip(s[..|s| - 1]) else s
  }

  function Strip(s: string): string { RStrip(LStrip(s)) }

  /** LStrip drops only whitespace, and all of it at the front. */
  lemma {:induction false} LStripFacts(s: string) returns (k: nat)
    ensures k <= |s| && LStrip(s) == s[k..]
    ensures forall i | 0 <= i < k :: IsSpace(s[i])
    ensures k < |s| ==> !IsSpace(s[k])
  {
    if s != "" && IsSpace(s[0]) {
      k := LStripFacts(s[1..]);
      assert forall i | 1 <= i < k + 1 :: s[i] == s[1..][i - 1];
      assert s[1..][k..] == s[k + 1..];
      k := k + 1;
    } else {
      k := 0;
    }
  }

  /** RStrip drops only whitespace, and all of it at the end. */
  lemma {:induction false} RStripFacts(s: string) returns (k: nat)
    ensures k <= |s| && RStrip(s) == s[..k]
    ensures forall i | k <= i < |s| :: IsSpace(s[i])
    ensures k > 0 ==> !IsSpace(s[k - 1])
  {
    if s != "" && IsSpace(s[|s| - 1]) {
      k := RStripFacts(s[..|s| - 1]);
      assert s[..|s| - 1][..k] == s[..k];
    } else {
      k := |s|;
    }
  }

  /** RStrip is the only prefix that ends solidly and drops nothing but whitespace. */
  lemma RStripIs(s: string, k: nat)
    requires k <= |s| && forall i | k <= i < |s| :: IsSpace(s[i])
    requires k > 0 ==> !IsSpace(s[k - 1])
    ensures RStrip(s) == s[..k]
  {
    var j := RStripFacts(s);
    assert j == k;
  }

  /** Stripping on the right stops inside the last part that is not blank. */
  lemma RStripAppend(a: string, b: string)
    requires RStrip(b) != ""
    ensures RStrip(a + b) == a + RStrip(b)
  {
    var k := RStripFacts(b);
    RStripIs(a + b, |a| + k);
    assert (a + b)[..|a| + k] == a + b[..k];
  }

  /** Strip gives a slice that keeps every solid character in place; the slice is empty or trimmed. */
  lemma StripFacts(s: string) returns (lo: nat, hi: nat)
    ensures lo <= hi <= |s| && Strip(s) == s[lo..hi]
    ensures forall i | 0 <= i < |s| && !IsSpace(s[i]) :: lo <= i < hi
    ensures Strip(s) == "" || Trimmed(Strip(s))
  {
    lo := LStripFacts(s);
    var k := RStripFacts(s[lo..]);
    hi := lo + k;
    assert s[lo..][..k] == s[lo..hi];
    assert forall i | lo <= i < |s| :: s[lo..][i - lo] == s[i];
  }

  lemma StripOfTrimmed(s: string)
    requires Trimmed(s)
    ensures Strip(s) == s
  {
    RStripIs(s, |s|);
    assert s[..|s|] == s;
  }

  /** The characters of the text that are not whitespace. */
  function Solid(s: string): string {
    if s == "" then "" else (if IsSpace(s[0]) then "" else [s[0]]) + Solid(s[1..])
  }

  lemma {:induction false} SolidConcat(a: string, b: string)
    ensures Solid(a + b) == Solid(a) + Solid(b)
  {
    if a == "" {
      assert a + b == b;
    } else {
      assert (a + b)[1..] == a[1..] + b;
      SolidConcat(a[1..], b);
    }
  }

  lemma {:induction false} SpaceIsNotSolid(s: string)
    requires forall i | 0 <= i < |s| :: IsSpace(s[i])
    ensures Solid(s) == ""
  {
    if s != "" {
      assert forall i | 0 <= i < |s[1..]| :: s[1..][i] == s[i + 1];
      SpaceIsNotSolid(s[1..]);
    }
  }

  lemma SolidOfSlice(s: string, lo: nat, hi: nat)
    requires lo <= hi <= |s| && forall i | 0 <= i < |s| && !(lo <= i < hi) :: IsSpace(s[i])
    ensures Solid(s[lo..hi]) == Solid(s)
  {
    hide Solid;
    SpaceIsNotSolid(s[..lo]);
    SpaceIsNotSolid(s[hi..]);
    SolidConcat(s[..lo], s[lo..hi]);
    SolidConcat(s[..hi], s[hi..]);
    assert s[..hi] == s[..lo] + s[lo..hi] && s == s[..hi] + s[hi..];
  }

  /** Stripping, on both sides or on the right, drops no solid character. */
  lemma StripKeepsSolid(s: string)
    ensures Solid(Strip(s)) == Solid(s) && Solid(RStrip(s)) == Solid(s)
  {
    hide Solid, Strip, RStrip, IsSpace;
    var lo, hi := StripFacts(s);
    SolidOfSlice(s, lo, hi);
    var k := RStripFacts(s);
    SolidOfSlice(s, 0, k);
    assert s[0..k] == s[..k];
  }

  /** "\n".join(lines) */
  function JoinLines(lines: seq<string>): string {
    if lines == [] then ""
    else if |lines| == 1 then lines[0]
    else JoinLines(lines[..|lines| - 1]) + "\n" + lines[|lines| - 1]
  }

  function Min(a: int, b: int): int { if a <= b then a else b }

  function Max(a: int, b: int): int { if a >= b then a else b }

  predicate BreakAt(s: string, p: int) {
    0 <= p && p + 2 <= |s| && s[p] == '\n' && s[p + 1] == '\n'
  }

  /** s.rfind("\n\n", start, end): the last paragraph break that lies inside s[start..end], or -1. */
  function RFindBreak(s: string, start: nat, end: nat): (p: int)
    requires end <= |s|
    ensures p == -1 || (start <= p <= end - 2 && BreakAt(s, p))
    ensures forall q | p < q && start <= q <= end - 2 :: !BreakAt(s, q)
    decreases end
  {
    if end < start + 2 then -1
    else if BreakAt(s, end - 2) then end - 2
    else RFindBreak(s, start, end - 1)
  }
}
