// Searching and trimming text, as Python's str does it.

module Strings {
  import opened Wrappers

  /** White space as Python's str.strip sees it. */
  predicate IsSpace(c: char)
  {
    var n := c as int;
    9 <= n <= 13 || 28 <= n <= 32 || n == 0x85 || n == 0xA0 || n == 0x1680 ||
    0x2000 <= n <= 0x200A || n == 0x2028 || n == 0x2029 || n == 0x202F || n == 0x205F || n == 0x3000
  }

  function RStrip(s: string): (r: string)
    ensures r <= s
    ensures r == "" || !IsSpace(r[|r| - 1])
    ensures forall i :: |r| <= i < |s| ==> IsSpace(s[i])
  {
    if s == "" || !IsSpace(s[|s| - 1]) then s else RStrip(s[..|s| - 1])
  }

  function LStrip(s: string): (r: string)
    ensures |r| <= |s| && r == s[|s| - |r|..]
    ensures r == "" || !IsSpace(r[0])
    ensures forall i :: 0 <= i < |s| - |r| ==> IsSpace(s[i])
  {
    if s == "" || !IsSpace(s[0]) then s else LStrip(s[1..])
  }

  function Strip(s: string): string
  {
    RStrip(LStrip(s))
  }

  predicate OccursAt(s: string, p: string, i: int)
  {
    0 <= i <= |s| - |p| && s[i..i + |p|] == p
  }

  lemma OccursInTail(s: string, p: string, k: int)
    requires s != "" && 1 <= k
    ensures OccursAt(s, p, k) == OccursAt(s[1..], p, k - 1)
  {
    if k <= |s| - |p| {
      var a, b := s[k..k + |p|], s[1..][k - 1..k - 1 + |p|];
      assert |a| == |b| && forall i :: 0 <= i < |p| ==> a[i] == b[i];
    }
  }

  /** The leftmost occurrence, or -1. */
  function Find(s: string, p: string): (i: int)
    ensures i == -1 || OccursAt(s, p, i)
    ensures forall j :: 0 <= j < i ==> !OccursAt(s, p, j)
    ensures i == -1 ==> forall j :: !OccursAt(s, p, j)
    decreases |s|
  {
    if |s| < |p| then -1
    else if s[..|p|] == p then 0
    else if s == "" then -1
    else
      var j := Find(s[1..], p);
      assert forall k :: 1 <= k ==> OccursAt(s, p, k) == OccursAt(s[1..], p, k - 1) by {
        forall k | 1 <= k ensures OccursAt(s, p, k) == OccursAt(s[1..], p, k - 1) { OccursInTail(s, p, k); }
      }
      assert !OccursAt(s, p, 0);
      if j == -1 then -1 else j + 1
  }

  /** The number of non-overlapping occurrences, from the left. */
  function Count(s: string, p: string): nat
    requires p != ""
    decreases |s|
  {
    var i := Find(s, p);
    if i == -1 then 0 else 1 + Count(s[i + |p|..], p)
  }

  /** The number of bytes of a text in UTF-8. */
  function Utf8Size(s: string): nat
  {
    if s == "" then 0 else Utf8Width(s[|s| - 1]) + Utf8Size(s[..|s| - 1])
  }

  function Utf8Width(c: char): nat
  {
    var n := c as int;
    if n < 0x80 then 1 else if n < 0x800 then 2 else if n < 0x1_0000 then 3 else 4
  }

  ghost predicate Absent(s: string, p: string)
  {
    forall i :: !OccursAt(s, p, i)
  }

  /** The pattern occurs once, at `i`. */
  ghost predicate Only(s: string, p: string, i: int)
  {
    forall j :: OccursAt(s, p, j) <==> j == i
  }

  lemma CharOfOccurrence(s: string, p: string, i: int, k: int)
    ensures OccursAt(s, p, i) && 0 <= k < |p| ==> s[i + k] == p[k]
  {
    if OccursAt(s, p, i) && 0 <= k < |p| {
      assert s[i..i + |p|][k] == s[i + k];
    }
  }

  lemma OccursInSlice(s: string, p: string, from: nat, to: nat, k: int)
    requires from <= to <= |s| && 0 <= k
    ensures OccursAt(s[from..to], p, k) ==> OccursAt(s, p, from + k)
    ensures from + k + |p| <= to ==> (OccursAt(s[from..to], p, k) <==> OccursAt(s, p, from + k))
  {
    if k + |p| <= to - from {
      SliceOfSlice(s, from, to, k, k + |p|);
    }
  }

  lemma SliceOfSlice(s: string, from: nat, to: nat, a: nat, b: nat)
    requires from <= to <= |s| && a <= b <= to - from
    ensures s[from..to][a..b] == s[from + a..from + b]
  {
    forall i | 0 <= i < b - a
      ensures s[from..to][a..b][i] == s[from + a..from + b][i]
    {
      assert s[from..to][a + i] == s[from + a + i];
    }
  }

  lemma AbsentInSlice(s: string, p: string, from: nat, to: nat)
    requires from <= to <= |s|
    requires forall i :: from <= i && i + |p| <= to ==> !OccursAt(s, p, i)
    ensures Absent(s[from..to], p)
  {
    forall k ensures !OccursAt(s[from..to], p, k) {
      if k >= 0 { OccursInSlice(s, p, from, to, k); }
    }
  }

  lemma TrimmedStays(s: string)
    requires s == "" || !IsSpace(s[|s| - 1])
    ensures RStrip(s) == s
  {
  }

  lemma {:induction false} RStripBlank(s: string, tail: string)
    requires forall i :: 0 <= i < |tail| ==> IsSpace(tail[i])
    ensures RStrip(s + tail) == RStrip(s)
    decreases |tail|
  {
    if tail == "" {
      assert s + tail == s;
    } else {
      assert (s + tail)[..|s + tail| - 1] == s + tail[..|tail| - 1];
      RStripBlank(s, tail[..|tail| - 1]);
    }
  }

  // ---- Lines ----

  /** The text between line breaks. */
  function SplitLines(s: string): (lines: seq<string>)
    ensures |lines| > 0
    decreases |s|
  {
    if s == "" then [""]
    else
      var rest := SplitLines(s[1..]);
      if s[0] == '\n' then [""] + rest else [[s[0]] + rest[0]] + rest[1..]
  }

  lemma {:induction false} SplitAtBreak(a: string, b: string)
    ensures SplitLines(a + "\n" + b) == SplitLines(a) + SplitLines(b)
    decreases |a|
  {
    var s := a + "\n" + b;
    if a == "" {
      assert s[1..] == b;
    } else {
      assert s[1..] == a[1..] + "\n" + b;
      SplitAtBreak(a[1..], b);
    }
  }

  lemma {:induction false} OneLine(s: string)
    requires forall i :: 0 <= i < |s| ==> s[i] != '\n'
    ensures SplitLines(s) == [s]
    decreases |s|
  {
    if s != "" {
      OneLine(s[1..]);
      assert [s[0]] + s[1..] == s;
    }
  }

  /** The line gives a quoted value after the prefix. */
  predicate Gives(line: string, prefix: string)
  {
    |line| > |prefix| && prefix <= line && line[|line| - 1] == '"'
  }

  /** The value given last after the prefix, without its closing quote. */
  function LastGiven(lines: seq<string>, prefix: string): (value: Option<string>)
    decreases |lines|
  {
    if lines == [] then None
    else
      var last := lines[|lines| - 1];
      if Gives(last, prefix) then Some(last[|prefix|..|last| - 1]) else LastGiven(lines[..|lines| - 1], prefix)
  }

  /** What a line gives stands, if no later line gives the same. */
  lemma {:induction false} GivenAt(before: seq<string>, lines: seq<string>, i: nat, prefix: string, value: string)
    requires i < |lines| && lines[i] == prefix + value + "\""
    requires forall k :: i < k < |lines| ==> !Gives(lines[k], prefix)
    ensures LastGiven(before + lines, prefix) == Some(value)
    decreases |lines|
  {
    var all := before + lines;
    var last := |lines| - 1;
    assert all[|all| - 1] == lines[last];
    if i < last {
      assert all[..|all| - 1] == before + lines[..last];
      GivenAt(before, lines[..last], i, prefix, value);
    } else {
      assert prefix <= lines[i];
      assert lines[i][|prefix|..|lines[i]| - 1] == value;
    }
  }

  lemma NotGiven(line: string, prefix: string, k: nat)
    requires k < |prefix| && (k < |line| ==> line[k] != prefix[k])
    ensures !Gives(line, prefix)
  {
  }
}
