// HTML comments in the security policy (repository_trust.py, visible_markdown_lines): the
// cursor loop against a reading of each line one character at a time.

module VisibleMarkdown {
  import opened Wrappers
  import opened Strings

  const OPENING := "<!--"
  const CLOSING := "-->"

  datatype Kind = Open | Close

  // ---- Reading a line ----

  function TokenAt(line: string, i: nat): Option<Kind>
  {
    if OccursAt(line, OPENING, i) then Some(Open)
    else if OccursAt(line, CLOSING, i) then Some(Close)
    else None
  }

  function Width(kind: Kind): nat
  {
    match kind
    case Open => |OPENING|
    case Close => |CLOSING|
  }

  /** The leftmost non-overlapping comment tokens of a line, from a position on. */
  function Kinds(line: string, i: nat): seq<Kind>
    decreases |line| - i
  {
    if i >= |line| then []
    else
      match TokenAt(line, i)
      case Some(kind) => [kind] + Kinds(line, i + Width(kind))
      case None => Kinds(line, i + 1)
  }

  /** The characters outside comments, given whether a comment is open at the position. */
  function Shown(line: string, i: nat, open: bool): string
    decreases |line| - i
  {
    if i >= |line| then ""
    else
      match TokenAt(line, i)
      case Some(kind) => Shown(line, i + Width(kind), kind.Open?)
      case None => (if open then "" else [line[i]]) + Shown(line, i + 1, open)
  }

  /** Whether a comment is open after the tokens; None when one of them is misplaced. */
  function After(kinds: seq<Kind>, open: bool): Option<bool>
    decreases |kinds|
  {
    if kinds == [] then Some(open)
    else if kinds[0].Open? == open then None
    else After(kinds[1..], !open)
  }

  function AllKinds(lines: seq<string>): seq<Kind>
    decreases |lines|
  {
    if lines == [] then [] else AllKinds(lines[..|lines| - 1]) + Kinds(lines[|lines| - 1], 0)
  }

  // ---- What the reading means ----

  /** Tokens are in order exactly when they alternate, and the state tells their parity. */
  lemma {:induction false} AfterMeansAlternation(kinds: seq<Kind>, open: bool)
    ensures After(kinds, open).Some? <==> forall k :: 0 <= k < |kinds| ==> kinds[k].Open? == ((k % 2 == 0) != open)
    ensures After(kinds, open).Some? ==> After(kinds, open).value == ((|kinds| % 2 == 0) == open)
    decreases |kinds|
  {
    if kinds != [] {
      AfterMeansAlternation(kinds[1..], !open);
      assert forall k :: 0 < k < |kinds| ==> kinds[k] == kinds[1..][k - 1];
      if After(kinds[1..], !open).Some? {
        forall k | 0 < k < |kinds| ensures kinds[k].Open? == ((k % 2 == 0) != open) {
          assert kinds[1..][k - 1].Open? == (((k - 1) % 2 == 0) != !open);
        }
      } else {
        var k :| 0 <= k < |kinds[1..]| && kinds[1..][k].Open? != ((k % 2 == 0) != !open);
        assert kinds[k + 1].Open? != (((k + 1) % 2 == 0) != open);
      }
    }
  }

  lemma {:induction false} AfterConcat(a: seq<Kind>, b: seq<Kind>, open: bool)
    ensures After(a + b, open) == if After(a, open).None? then None else After(b, After(a, open).value)
    decreases |a|
  {
    if a == [] {
      assert a + b == b;
    } else {
      assert (a + b)[1..] == a[1..] + b;
      AfterConcat(a[1..], b, !open);
    }
  }

  // ---- Reading in one pass ----

  datatype Piece = Piece(shown: string, open: bool)

  function Prepend(text: string, read: Option<Piece>): Option<Piece>
  {
    match read
    case None => None
    case Some(piece) => Some(Piece(text + piece.shown, piece.open))
  }

  /** The rest of a line with the state it starts in; None when a token is misplaced. */
  function Read(line: string, i: nat, open: bool): Option<Piece>
    decreases |line| - i
  {
    if i >= |line| then Some(Piece("", open))
    else
      match TokenAt(line, i)
      case Some(kind) => if kind.Open? == open then None else Read(line, i + Width(kind), !open)
      case None => Prepend(if open then "" else [line[i]], Read(line, i + 1, open))
  }

  /** One pass gives the order of the tokens and the text between them. */
  lemma {:induction false} ReadMeans(line: string, i: nat, open: bool)
    ensures Read(line, i, open).Some? <==> After(Kinds(line, i), open).Some?
    ensures Read(line, i, open).Some? ==> Read(line, i, open).value.shown == Shown(line, i, open)
    ensures Read(line, i, open).Some? ==> Some(Read(line, i, open).value.open) == After(Kinds(line, i), open)
    decreases |line| - i
  {
    if i < |line| {
      match TokenAt(line, i)
      case Some(kind) =>
        var rest := Kinds(line, i + Width(kind));
        assert ([kind] + rest)[1..] == rest;
        ReadMeans(line, i + Width(kind), !open);
      case None =>
        ReadMeans(line, i + 1, open);
    }
  }

  lemma PrependTwice(a: string, b: string, read: Option<Piece>)
    ensures Prepend(a, Prepend(b, read)) == Prepend(a + b, read)
  {
    if read.Some? {
      assert a + (b + read.value.shown) == a + b + read.value.shown;
    }
  }

  lemma PrependNothing(read: Option<Piece>)
    ensures Prepend("", read) == read
  {
    if read.Some? {
      assert "" + read.value.shown == read.value.shown;
    }
  }

  /** Nothing between two positions starts a token. */
  predicate Plain(line: string, i: nat, j: nat)
  {
    forall k :: i <= k < j ==> TokenAt(line, k).None?
  }

  lemma {:induction false} SkipPlain(line: string, i: nat, j: nat, open: bool)
    requires i <= j <= |line| && Plain(line, i, j)
    ensures Read(line, i, open) == Prepend(if open then "" else line[i..j], Read(line, j, open))
    decreases j - i
  {
    if i < j {
      SkipPlain(line, i + 1, j, open);
      var first, later := if open then "" else [line[i]], if open then "" else line[i + 1..j];
      PrependTwice(first, later, Read(line, j, open));
      assert first + later == if open then "" else line[i..j];
    } else {
      assert line[i..j] == "";
      PrependNothing(Read(line, i, open));
    }
  }

  /** What is visible once plain text up to a position is added. */
  function Grown(visible: string, line: string, i: nat, j: nat, open: bool): string
    requires i <= j <= |line|
  {
    if open then visible else visible + line[i..j]
  }

  lemma PlainRead(visible: string, line: string, i: nat, j: nat, open: bool)
    requires i <= j <= |line| && Plain(line, i, j)
    ensures Prepend(visible, Read(line, i, open)) == Prepend(Grown(visible, line, i, j, open), Read(line, j, open))
  {
    SkipPlain(line, i, j, open);
    PrependNothing(Read(line, j, open));
    PrependTwice(visible, line[i..j], Read(line, j, open));
  }

  /** The next token after plain text, and what it does to the reading. */
  lemma TokenRead(visible: string, line: string, i: nat, j: nat, kind: Kind, open: bool)
    requires i <= j < |line| && Plain(line, i, j) && TokenAt(line, j) == Some(kind)
    ensures j + Width(kind) <= |line|
    ensures
      Prepend(visible, Read(line, i, open)) ==
      if kind.Open? == open then None
      else Prepend(Grown(visible, line, i, j, open), Read(line, j + Width(kind), !open))
  {
    PlainRead(visible, line, i, j, open);
  }

  // ---- The scanner ----

  /** The first occurrence at or after a position, or -1. */
  function FindFrom(s: string, p: string, from: nat): (i: int)
    ensures i == -1 || from <= i < |s|
    decreases |s| - from
  {
    if from >= |s| then -1
    else if OccursAt(s, p, from) then from
    else FindFrom(s, p, from + 1)
  }

  lemma {:induction false} FindFromIsFirst(s: string, p: string, from: nat)
    ensures FindFrom(s, p, from) != -1 ==> OccursAt(s, p, FindFrom(s, p, from))
    ensures forall k :: from <= k < (if FindFrom(s, p, from) == -1 then |s| else FindFrom(s, p, from)) ==> !OccursAt(s, p, k)
    decreases |s| - from
  {
    if from < |s| && !OccursAt(s, p, from) {
      FindFromIsFirst(s, p, from + 1);
    }
  }

  /** The nearer of the two searches is the next token. */
  lemma NearerIsNext(line: string, from: nat)
    requires from <= |line|
    ensures
      var opening, closing := FindFrom(line, OPENING, from), FindFrom(line, CLOSING, from);
      && (opening != -1 && (closing == -1 || opening < closing) ==>
            Plain(line, from, opening) && TokenAt(line, opening) == Some(Open))
      && (closing != -1 && (opening == -1 || closing < opening) ==>
            Plain(line, from, closing) && TokenAt(line, closing) == Some(Close))
      && (opening == -1 && closing == -1 ==> Plain(line, from, |line|))
      && (opening == closing ==> opening == -1)
  {
    FindFromIsFirst(line, OPENING, from);
    FindFromIsFirst(line, CLOSING, from);
    var opening := FindFrom(line, OPENING, from);
    if opening != -1 {
      StartsWith(line, OPENING, opening);
      StartsWith(line, CLOSING, opening);
    }
  }

  lemma StartsWith(s: string, p: string, i: nat)
    requires p != ""
    ensures OccursAt(s, p, i) ==> i < |s| && s[i] == p[0]
  {
    if OccursAt(s, p, i) {
      assert s[i..i + |p|][0] == s[i];
    }
  }

  /** The two searches, and what each outcome does to the reading. */
  lemma NextRead(visible: string, line: string, i: nat, open: bool)
    requires i <= |line|
    ensures
      var opening, closing := FindFrom(line, OPENING, i), FindFrom(line, CLOSING, i);
      var read := Prepend(visible, Read(line, i, open));
      && (opening == closing ==> opening == -1)
      && if opening != -1 && (closing == -1 || opening < closing) then
        opening + 4 <= |line| &&
        read == if open then None else Prepend(visible + line[i..opening], Read(line, opening + 4, true))
      else if closing != -1 then
        closing + 3 <= |line| &&
        read == if open then Prepend(visible, Read(line, closing + 3, false)) else None
      else
        read == Prepend(if open then visible else visible + line[i..], Read(line, |line|, open))
  {
    NearerIsNext(line, i);
    var opening, closing := FindFrom(line, OPENING, i), FindFrom(line, CLOSING, i);
    if opening != -1 && (closing == -1 || opening < closing) {
      TokenRead(visible, line, i, opening, Open, open);
    } else if closing != -1 {
      TokenRead(visible, line, i, closing, Close, open);
    } else {
      PlainRead(visible, line, i, |line|, open);
      assert line[i..] == line[i..|line|];
    }
  }

  /** One line: its visible text and whether a comment is open after it. */
  method VisibleLine(line: string, inComment: bool) returns (r: Option<Piece>)
    ensures r == Read(line, 0, inComment)
  {
    var cursor, visible, open := 0, "", inComment;
    PrependNothing(Read(line, 0, inComment));
    while cursor < |line|
      invariant cursor <= |line|
      invariant Read(line, 0, inComment) == Prepend(visible, Read(line, cursor, open))
      decreases |line| - cursor
    {
      var opening := FindFrom(line, OPENING, cursor);
      var closing := FindFrom(line, CLOSING, cursor);
      NextRead(visible, line, cursor, open);
      if open {
        if opening != -1 && (closing == -1 || opening < closing) {
          return None;
        }
        if closing == -1 {
          cursor := |line|;
        } else {
          open := false;
          cursor := closing + 3;
        }
      } else {
        if closing != -1 && (opening == -1 || closing < opening) {
          return None;
        }
        if opening == -1 {
          visible := visible + line[cursor..];
          cursor := |line|;
        } else {
          visible := visible + line[cursor..opening];
          open := true;
          cursor := opening + 4;
        }
      }
    }
    assert visible + "" == visible;
    return Some(Piece(visible, open));
  }

  /** The state before a line. */
  function OpenBefore(lines: seq<string>, k: nat): bool
    requires k <= |lines|
  {
    var state := After(AllKinds(lines[..k]), false);
    state.Some? && state.value
  }

  /** Reading one more line, in terms of the tokens of all lines. */
  lemma NextLine(lines: seq<string>, i: nat, open: bool)
    requires i < |lines| && After(AllKinds(lines[..i]), false) == Some(open)
    ensures Visible(lines[..i + 1]) == Visible(lines[..i]) + [Shown(lines[i], 0, open)]
    ensures
      var read := Read(lines[i], 0, open);
      && (read.None? ==> After(AllKinds(lines[..i + 1]), false).None?)
      && (read.Some? ==> After(AllKinds(lines[..i + 1]), false) == Some(read.value.open))
      && (read.Some? ==> read.value.shown == Shown(lines[i], 0, open))
  {
    assert lines[..i + 1][..i] == lines[..i];
    AfterConcat(AllKinds(lines[..i]), Kinds(lines[i], 0), false);
    ReadMeans(lines[i], 0, open);
  }

  /** Every line with its comments removed. */
  function Visible(lines: seq<string>): seq<string>
    decreases |lines|
  {
    if lines == [] then []
    else
      var n := |lines| - 1;
      Visible(lines[..n]) + [Shown(lines[n], 0, OpenBefore(lines, n))]
  }

  /** One line out for each line in, in place. */
  lemma {:induction false} VisibleAt(lines: seq<string>, k: nat)
    requires k < |lines|
    ensures |Visible(lines)| == |lines|
    ensures Visible(lines)[k] == Shown(lines[k], 0, OpenBefore(lines, k))
    decreases |lines|
  {
    var n := |lines| - 1;
    if n > 0 {
      VisibleAt(lines[..n], if k < n then k else 0);
    }
    if k < n {
      assert lines[..n][..k] == lines[..k];
    }
  }

  /** The whole text: it is accepted exactly when the tokens of all its lines alternate,
      opening first, and end closed; each line then loses exactly its comments. */
  method VisibleMarkdownLines(lines: seq<string>) returns (r: Checked<seq<string>>)
    ensures r == if After(AllKinds(lines), false) == Some(false) then Ok(Visible(lines)) else Raise(Invalid)
  {
    var visibleLines, open := [], false;
    for i := 0 to |lines|
      invariant After(AllKinds(lines[..i]), false) == Some(open)
      invariant visibleLines == Visible(lines[..i])
    {
      NextLine(lines, i, open);
      var line := VisibleLine(lines[i], open);
      if line.None? {
        Misplaced(lines, i + 1);
        return Raise(Invalid);
      }
      visibleLines := visibleLines + [line.value.shown];
      open := line.value.open;
    }
    assert lines[..|lines|] == lines;
    return if open then Raise(Invalid) else Ok(visibleLines);
  }

  /** A misplaced token stays misplaced, whatever follows. */
  lemma {:induction false} Misplaced(lines: seq<string>, n: nat)
    requires n <= |lines| && After(AllKinds(lines[..n]), false).None?
    ensures After(AllKinds(lines), false).None?
    decreases |lines|
  {
    if n == |lines| {
      assert lines[..n] == lines;
    } else {
      var earlier := lines[..|lines| - 1];
      assert earlier[..n] == lines[..n];
      Misplaced(earlier, n);
      AfterConcat(AllKinds(earlier), Kinds(lines[|lines| - 1], 0), false);
    }
  }

  /** Acceptance, said of the tokens alone. */
  lemma AcceptanceMeansAlternation(lines: seq<string>)
    ensures
      After(AllKinds(lines), false) == Some(false) <==>
      |AllKinds(lines)| % 2 == 0 && forall k :: 0 <= k < |AllKinds(lines)| ==> AllKinds(lines)[k].Open? == (k % 2 == 0)
  {
    AfterMeansAlternation(AllKinds(lines), false);
  }
}
