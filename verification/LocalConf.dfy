// The managed block of local.conf (configure_build.py, render_local_conf).

module LocalConf {
  import opened Wrappers
  import opened Strings

  // The constant texts are put together from pieces, because a proof about a long literal
  // looks at each of its characters: the lemmas on single lines go piece by piece.

  const BEGIN_MARK: string := "# BEGIN yocto-qemu-edu-lab"
  const END_MARK: string := "# END yocto-qemu-edu-lab"
  const NOTE_DIRS: string := "# Keep reusable downloads " + "and shared-state output " + "outside tmp/."
  const SET_DL: string := "DL_DIR ?= \"${TOPDIR}/../downloads\""
  const SET_SSTATE: string := "SSTATE_DIR ?= \"${TOPDIR}/../sstate-cache\""
  const NOTE_DEV: string := "# Development convenience only; " + "remove this from " + "a production image."
  const SET_FEATURES: string :=
    "EXTRA_IMAGE_FEATURES += \"" + "allow-empty-password " + "allow-root-login "
    + "empty-root-password " + "post-install-logging\""

  /** The lines between the two marks. */
  function Settings(distro: string, machine: string): string
  {
    "DISTRO = \"" + distro + "\"" + "\n" + ("MACHINE = \"" + machine + "\"" + "\n" + ("" + "\n" + (
    NOTE_DIRS + "\n" + (SET_DL + "\n" + (SET_SSTATE + "\n" + ("" + "\n" + (
    NOTE_DEV + "\n" + SET_FEATURES)))))))
  }

  function Block(distro: string, machine: string): string
  {
    BEGIN_MARK + "\n" + (Settings(distro, machine) + "\n" + END_MARK)
  }

  /** No managed block, or exactly one whose marks come in order. */
  predicate Accepted(text: string)
  {
    var begins, ends := Count(text, BEGIN_MARK), Count(text, END_MARK);
    || (begins == 0 && ends == 0)
    || (begins == 1 && ends == 1 && Find(text, BEGIN_MARK) < Find(text, END_MARK))
  }

  function RenderLocalConf(text: string, distro: string, machine: string): Checked<string>
  {
    if !Accepted(text) then Raise(Invalid)
    else
      var block := Block(distro, machine);
      if Find(text, BEGIN_MARK) != -1 then
        var before := RStrip(text[..Find(text, BEGIN_MARK)]);
        var after := Strip(text[Find(text, END_MARK) + |END_MARK|..]);
        Ok((if after == "" then before else before + "\n\n" + after) + "\n\n" + block + "\n")
      else
        Ok(RStrip(text) + "\n\n" + block + "\n")
  }

  // ---- Marks: one '#', at the front, and no line break ----

  predicate Free(s: string, c: char)
  {
    forall i :: 0 <= i < |s| ==> s[i] != c
  }

  predicate IsMark(p: string)
  {
    && |p| > 3 && p[0] == '#' && Free(p[1..], '#') && Free(p, '\n')
    && (p[2] == 'B' || p[2] == 'E')
  }

  lemma MarksAreMarks()
    ensures IsMark(BEGIN_MARK) && IsMark(END_MARK)
  {
  }

  /** A line break separates occurrences. */
  lemma OccursInLines(a: string, b: string, p: string, i: int)
    requires IsMark(p)
    ensures OccursAt(a + "\n" + b, p, i) <==> OccursAt(a, p, i) || OccursAt(b, p, i - |a| - 1)
  {
    var s := a + "\n" + b;
    if i + |p| <= |a| && 0 <= i {
      assert s[i..i + |p|] == a[i..i + |p|];
    } else if 0 <= i <= |a| {
      CharOfOccurrence(s, p, i, |a| - i);
    } else if |a| < i <= |s| - |p| {
      var k := i - |a| - 1;
      assert s[i..i + |p|] == b[k..k + |p|];
    }
  }

  lemma AbsentInLines(a: string, b: string, p: string)
    requires IsMark(p) && Absent(a, p) && Absent(b, p)
    ensures Absent(a + "\n" + b, p)
  {
    forall i ensures !OccursAt(a + "\n" + b, p, i) { OccursInLines(a, b, p, i); }
  }

  lemma OnlyInSecond(a: string, b: string, p: string, i: int)
    requires IsMark(p) && Absent(a, p) && Only(b, p, i)
    ensures Only(a + "\n" + b, p, |a| + 1 + i)
  {
    forall j ensures OccursAt(a + "\n" + b, p, j) <==> j == |a| + 1 + i { OccursInLines(a, b, p, j); }
  }

  lemma OnlyInFirst(a: string, b: string, p: string, i: int)
    requires IsMark(p) && Only(a, p, i) && Absent(b, p)
    ensures Only(a + "\n" + b, p, i)
  {
    forall j ensures OccursAt(a + "\n" + b, p, j) <==> j == i { OccursInLines(a, b, p, j); }
  }

  lemma FreeIsAbsent(s: string, p: string)
    requires IsMark(p) && Free(s, '#')
    ensures Absent(s, p)
  {
    forall i ensures !OccursAt(s, p, i) {
      CharOfOccurrence(s, p, i, 0);
    }
  }

  /** A comment with another third character is no occurrence. */
  lemma NoteIsAbsent(s: string, p: string)
    requires IsMark(p) && |s| > 2 && Free(s[1..], '#') && s[2] != p[2]
    ensures Absent(s, p)
  {
    forall i ensures !OccursAt(s, p, i) {
      CharOfOccurrence(s, p, i, 0);
      CharOfOccurrence(s, p, i, 2);
      assert 1 <= i < |s| ==> s[i] == s[1..][i - 1];
    }
  }

  lemma FreeConcat3(a: string, b: string, d: string, c: char)
    requires Free(a, c) && Free(b, c) && Free(d, c)
    ensures Free(a + b + d, c)
  {
  }

  lemma NoteDirsIsAbsent(p: string)
    requires IsMark(p)
    ensures Absent(NOTE_DIRS, p)
  {
    var first := "# Keep reusable downloads ";
    assert NOTE_DIRS[1..] == first[1..] + "and shared-state output " + "outside tmp/.";
    FreeConcat3(first[1..], "and shared-state output ", "outside tmp/.", '#');
    NoteIsAbsent(NOTE_DIRS, p);
  }

  lemma NoteDevIsAbsent(p: string)
    requires IsMark(p)
    ensures Absent(NOTE_DEV, p)
  {
    var first := "# Development convenience only; ";
    assert NOTE_DEV[1..] == first[1..] + "remove this from " + "a production image.";
    FreeConcat3(first[1..], "remove this from ", "a production image.", '#');
    NoteIsAbsent(NOTE_DEV, p);
  }

  lemma FeaturesAreAbsent(p: string)
    requires IsMark(p)
    ensures Absent(SET_FEATURES, p)
  {
    FeaturesAreFree('#');
    FreeIsAbsent(SET_FEATURES, p);
  }

  lemma ConstantLines(p: string)
    requires IsMark(p)
    ensures Absent(NOTE_DIRS, p) && Absent(NOTE_DEV, p) && Absent("", p)
    ensures Absent(SET_DL, p) && Absent(SET_SSTATE, p) && Absent(SET_FEATURES, p)
  {
    NoteDirsIsAbsent(p);
    NoteDevIsAbsent(p);
    FeaturesAreAbsent(p);
    FreeIsAbsent("", p);
    FreeIsAbsent(SET_DL, p);
    FreeIsAbsent(SET_SSTATE, p);
  }

  predicate IsToken(s: string)
  {
    s != "" && IsAlphanumeric(s[0]) &&
    forall i :: 0 <= i < |s| ==> IsAlphanumeric(s[i]) || s[i] == '.' || s[i] == '_' || s[i] == '+' || s[i] == '-'
  }

  predicate IsAlphanumeric(c: char)
  {
    'A' <= c <= 'Z' || 'a' <= c <= 'z' || '0' <= c <= '9'
  }

  lemma SettingsAreClean(distro: string, machine: string, p: string)
    requires IsMark(p) && IsToken(distro) && IsToken(machine)
    ensures Absent(Settings(distro, machine), p)
  {
    ConstantLines(p);
    FreeIsAbsent("DISTRO = \"" + distro + "\"", p);
    FreeIsAbsent("MACHINE = \"" + machine + "\"", p);
    var s0 := NOTE_DEV + "\n" + SET_FEATURES;
    AbsentInLines(NOTE_DEV, SET_FEATURES, p);
    AbsentInLines("", s0, p);
    AbsentInLines(SET_SSTATE, "" + "\n" + s0, p);
    AbsentInLines(SET_DL, SET_SSTATE + "\n" + ("" + "\n" + s0), p);
    var s1 := SET_DL + "\n" + (SET_SSTATE + "\n" + ("" + "\n" + s0));
    AbsentInLines(NOTE_DIRS, s1, p);
    AbsentInLines("", NOTE_DIRS + "\n" + s1, p);
    AbsentInLines("MACHINE = \"" + machine + "\"", "" + "\n" + (NOTE_DIRS + "\n" + s1), p);
    AbsentInLines("DISTRO = \"" + distro + "\"",
                  "MACHINE = \"" + machine + "\"" + "\n" + ("" + "\n" + (NOTE_DIRS + "\n" + s1)), p);
  }

  // ---- Counting ----

  lemma CountOfOnly(s: string, p: string, i: int)
    requires IsMark(p) && Only(s, p, i)
    ensures Count(s, p) == 1 && Find(s, p) == i
  {
    assert OccursAt(s, p, i);
    AbsentInSlice(s, p, i + |p|, |s|);
    assert s[i + |p|..|s|] == s[i + |p|..];
  }

  /** Marks never overlap: their only '#' is the first character. */
  lemma MarksDoNotOverlap(s: string, p: string, i: int, j: int)
    requires IsMark(p) && OccursAt(s, p, i) && OccursAt(s, p, j) && i < j
    ensures i + |p| <= j
  {
    CharOfOccurrence(s, p, i, j - i);
    CharOfOccurrence(s, p, j, 0);
    NoLaterHash(p, j - i);
  }

  lemma NoLaterHash(p: string, k: int)
    requires IsMark(p)
    ensures 1 <= k < |p| ==> p[k] != '#'
  {
    if 1 <= k < |p| {
      assert p[k] == p[1..][k - 1];
    }
  }

  lemma NothingAfterTheOnly(s: string, p: string)
    requires p != "" && Count(s, p) == 1
    ensures Find(s, p) != -1 && Absent(s[Find(s, p) + |p|..], p)
  {
    assert Count(s[Find(s, p) + |p|..], p) == 0;
    assert Find(s[Find(s, p) + |p|..], p) == -1;
  }

  lemma CountOneIsOnly(s: string, p: string)
    requires IsMark(p) && Count(s, p) == 1
    ensures Only(s, p, Find(s, p))
  {
    NothingAfterTheOnly(s, p);
    var i := Find(s, p);
    assert i + |p| <= |s|;
    hide IsMark, Find, Count, OccursAt;
    assert s[i + |p|..|s|] == s[i + |p|..];
    forall j ensures OccursAt(s, p, j) <==> j == i {
      if OccursAt(s, p, j) && j > i {
        MarksDoNotOverlap(s, p, i, j);
        OccursInSlice(s, p, i + |p|, |s|, j - i - |p|);
      }
    }
  }

  // ---- What rendering keeps ----

  /** The text outside the managed block, as rendering keeps it. */
  function UserText(text: string): string
  {
    if Find(text, BEGIN_MARK) == -1 || Find(text, END_MARK) == -1 then RStrip(text)
    else
      var before := RStrip(text[..Find(text, BEGIN_MARK)]);
      var after := Strip(text[Find(text, END_MARK) + |END_MARK|..]);
      if after == "" then before else before + "\n\n" + after
  }

  ghost predicate Clean(s: string)
  {
    Absent(s, BEGIN_MARK) && Absent(s, END_MARK)
  }

  lemma CleanPrefix(s: string, r: string)
    requires Clean(s) && r <= s
    ensures Clean(r)
  {
    assert r == s[0..|r|];
    AbsentInSlice(s, BEGIN_MARK, 0, |r|);
    AbsentInSlice(s, END_MARK, 0, |r|);
  }

  lemma CleanStrip(s: string)
    requires Clean(s)
    ensures Clean(Strip(s))
  {
    var l := LStrip(s);
    assert l == s[|s| - |l|..|s|];
    AbsentInSlice(s, BEGIN_MARK, |s| - |l|, |s|);
    AbsentInSlice(s, END_MARK, |s| - |l|, |s|);
    CleanPrefix(l, RStrip(l));
  }

  lemma CleanJoin(a: string, b: string)
    requires Clean(a) && Clean(b)
    ensures Clean(a + "\n\n" + b)
  {
    MarksAreMarks();
    FreeIsAbsent("", BEGIN_MARK);
    FreeIsAbsent("", END_MARK);
    assert a + "\n\n" + b == a + "\n" + ("" + "\n" + b);
    AbsentInLines("", b, BEGIN_MARK);
    AbsentInLines("", b, END_MARK);
    AbsentInLines(a, "" + "\n" + b, BEGIN_MARK);
    AbsentInLines(a, "" + "\n" + b, END_MARK);
  }

  lemma AbsentAround(s: string, p: string, i: int, before: int, after: int)
    requires p != "" && Only(s, p, i) && 0 <= before <= i < after <= |s|
    ensures Absent(s[..before], p) && Absent(s[after..], p)
  {
    assert s[..before] == s[0..before] && s[after..] == s[after..|s|];
    AbsentInSlice(s, p, 0, before);
    AbsentInSlice(s, p, after, |s|);
  }

  /** The parts before and after an accepted block hold no mark. */
  lemma OuterPartsAreClean(text: string)
    requires Accepted(text) && Find(text, BEGIN_MARK) != -1
    ensures 0 <= Find(text, BEGIN_MARK) < Find(text, END_MARK)
    ensures Clean(text[..Find(text, BEGIN_MARK)])
    ensures Clean(text[Find(text, END_MARK) + |END_MARK|..])
  {
    AcceptedMarks(text);
    MarksAreMarks();
    hide IsMark, OccursAt, Count, Find, Only, Absent, Accepted;
    CountOneIsOnly(text, BEGIN_MARK);
    CountOneIsOnly(text, END_MARK);
    var b, e := Find(text, BEGIN_MARK), Find(text, END_MARK);
    AbsentAround(text, BEGIN_MARK, b, b, e + |END_MARK|);
    AbsentAround(text, END_MARK, e, b, e + |END_MARK|);
  }

  lemma AcceptedMarks(text: string)
    requires Accepted(text) && Find(text, BEGIN_MARK) != -1
    ensures Count(text, BEGIN_MARK) == 1 && Count(text, END_MARK) == 1
    ensures 0 <= Find(text, BEGIN_MARK) < Find(text, END_MARK) && Find(text, END_MARK) + |END_MARK| <= |text|
  {
    FoundIsCounted(text, BEGIN_MARK);
    assert Count(text, BEGIN_MARK) == 1;
    FoundFits(text, END_MARK);
  }

  lemma FoundIsCounted(s: string, p: string)
    requires p != ""
    ensures Count(s, p) > 0 <==> Find(s, p) != -1
  {
  }

  lemma FoundFits(s: string, p: string)
    ensures Find(s, p) != -1 ==> 0 <= Find(s, p) <= |s| - |p|
  {
  }

  lemma UserTextIsClean(text: string)
    requires Accepted(text)
    ensures Clean(UserText(text))
  {
    if Find(text, BEGIN_MARK) == -1 {
      CleanPrefix(text, RStrip(text));
    } else {
      OuterPartsAreClean(text);
      CleanKept(text[..Find(text, BEGIN_MARK)], text[Find(text, END_MARK) + |END_MARK|..]);
    }
  }

  lemma CleanKept(pre: string, post: string)
    requires Clean(pre) && Clean(post)
    ensures Clean(RStrip(pre)) && Clean(RStrip(pre) + "\n\n" + Strip(post))
  {
    CleanPrefix(pre, RStrip(pre));
    CleanStrip(post);
    CleanJoin(RStrip(pre), Strip(post));
  }

  lemma UserTextIsTrimmed(text: string)
    ensures RStrip(UserText(text)) == UserText(text)
  {
    TrimmedStays(UserText(text));
  }

  /** A rendering: user text, one empty line, one block, at the very end. */
  function Rendering(user: string, distro: string, machine: string): string
  {
    user + "\n\n" + Block(distro, machine) + "\n"
  }

  lemma MarkOnlyInItself(p: string)
    requires IsMark(p)
    ensures Only(p, p, 0)
  {
    forall j ensures OccursAt(p, p, j) <==> j == 0 { }
  }

  lemma BlockMarks(distro: string, machine: string)
    requires IsToken(distro) && IsToken(machine)
    ensures Only(Block(distro, machine), BEGIN_MARK, 0)
    ensures Only(Block(distro, machine), END_MARK, |Block(distro, machine)| - |END_MARK|)
  {
    MarksAreMarks();
    var settings := Settings(distro, machine);
    SettingsAreClean(distro, machine, BEGIN_MARK);
    SettingsAreClean(distro, machine, END_MARK);
    MarkOnlyInItself(BEGIN_MARK);
    MarkOnlyInItself(END_MARK);
    NoteIsAbsent(BEGIN_MARK, END_MARK);
    NoteIsAbsent(END_MARK, BEGIN_MARK);
    AbsentInLines(settings, END_MARK, BEGIN_MARK);
    OnlyInFirst(BEGIN_MARK, settings + "\n" + END_MARK, BEGIN_MARK, 0);
    OnlyInSecond(settings, END_MARK, END_MARK, 0);
    OnlyInSecond(BEGIN_MARK, settings + "\n" + END_MARK, END_MARK, |settings| + 1);
  }

  lemma RenderingMarks(user: string, distro: string, machine: string)
    requires Clean(user) && IsToken(distro) && IsToken(machine)
    ensures
      var r := Rendering(user, distro, machine);
      && Only(r, BEGIN_MARK, |user| + 2)
      && Only(r, END_MARK, |r| - 1 - |END_MARK|)
  {
    MarksAreMarks();
    BlockMarks(distro, machine);
    var block := Block(distro, machine);
    assert Rendering(user, distro, machine) == user + "\n" + ("" + "\n" + (block + "\n" + ""));
    FreeIsAbsent("", BEGIN_MARK);
    FreeIsAbsent("", END_MARK);
    OnlyInFirst(block, "", BEGIN_MARK, 0);
    OnlyInFirst(block, "", END_MARK, |block| - |END_MARK|);
    OnlyInSecond("", block + "\n" + "", BEGIN_MARK, 0);
    OnlyInSecond("", block + "\n" + "", END_MARK, |block| - |END_MARK|);
    OnlyInSecond(user, "" + "\n" + (block + "\n" + ""), BEGIN_MARK, 1);
    OnlyInSecond(user, "" + "\n" + (block + "\n" + ""), END_MARK, 1 + |block| - |END_MARK|);
  }

  lemma RenderIsRendering(text: string, distro: string, machine: string)
    ensures RenderLocalConf(text, distro, machine) ==
      if Accepted(text) then Ok(Rendering(UserText(text), distro, machine)) else Raise(Invalid)
  {
    if Accepted(text) && Find(text, BEGIN_MARK) != -1 {
      OuterPartsAreClean(text);
    }
  }

  lemma RenderingIsAccepted(user: string, distro: string, machine: string)
    requires Clean(user) && IsToken(distro) && IsToken(machine)
    ensures
      var r := Rendering(user, distro, machine);
      && Count(r, BEGIN_MARK) == 1 && Count(r, END_MARK) == 1
      && Find(r, BEGIN_MARK) == |user| + 2 && Find(r, END_MARK) == |r| - 1 - |END_MARK|
  {
    MarksAreMarks();
    RenderingMarks(user, distro, machine);
    CountOfOnly(Rendering(user, distro, machine), BEGIN_MARK, |user| + 2);
    CountOfOnly(Rendering(user, distro, machine), END_MARK, |Rendering(user, distro, machine)| - 1 - |END_MARK|);
  }

  lemma EdgesOfRendering(user: string, distro: string, machine: string)
    ensures
      var r := Rendering(user, distro, machine);
      RStrip(r[..|user| + 2]) == RStrip(user) && Strip(r[|r| - 1..]) == ""
  {
    var r := Rendering(user, distro, machine);
    assert r[..|user| + 2] == user + "\n\n";
    RStripBlank(user, "\n\n");
    assert r[|r| - 1..] == "\n";
    assert LStrip("\n") == "";
  }

  lemma UserTextOfRendering(user: string, distro: string, machine: string)
    requires Clean(user) && RStrip(user) == user && IsToken(distro) && IsToken(machine)
    ensures UserText(Rendering(user, distro, machine)) == user
  {
    RenderingIsAccepted(user, distro, machine);
    EdgesOfRendering(user, distro, machine);
  }

  /** Rendering succeeds exactly on accepted text. The result is accepted again, holds each
      mark exactly once, ends with the block, and keeps the user text. */
  lemma RenderedOnce(text: string, distro: string, machine: string)
    requires IsToken(distro) && IsToken(machine)
    ensures RenderLocalConf(text, distro, machine).Ok? <==> Accepted(text)
    ensures Accepted(text) ==>
      var r := RenderLocalConf(text, distro, machine).value;
      && Accepted(r)
      && Count(r, BEGIN_MARK) == 1 && Count(r, END_MARK) == 1
      && |r| > |Block(distro, machine)|
      && r[|r| - |Block(distro, machine)| - 1..] == Block(distro, machine) + "\n"
      && UserText(r) == UserText(text)
  {
    RenderIsRendering(text, distro, machine);
    if Accepted(text) {
      UserTextIsClean(text);
      UserTextIsTrimmed(text);
      RenderingIsAccepted(UserText(text), distro, machine);
      UserTextOfRendering(UserText(text), distro, machine);
      BlockIsLast(UserText(text), distro, machine);
    }
  }

  lemma BlockIsLast(user: string, distro: string, machine: string)
    ensures
      var (r, block) := (Rendering(user, distro, machine), Block(distro, machine));
      |r| > |block| && r[|r| - |block| - 1..] == block + "\n"
  {
  }

  /** Rendering a rendering, even for another distro and machine, is rendering the original. */
  lemma RenderingIsIdempotent(text: string, distro: string, machine: string, distro2: string, machine2: string)
    requires Accepted(text)
    requires IsToken(distro) && IsToken(machine)
    ensures
      var r := RenderLocalConf(text, distro, machine);
      RenderLocalConf(r.value, distro2, machine2) == RenderLocalConf(text, distro2, machine2)
  {
    RenderedOnce(text, distro, machine);
    RenderIsRendering(text, distro2, machine2);
    RenderIsRendering(RenderLocalConf(text, distro, machine).value, distro2, machine2);
  }

  /** The one occurrence of a mark is the one that is found. */
  lemma FoundAt(text: string, p: string, i: int)
    requires IsMark(p) && Count(text, p) <= 1 && OccursAt(text, p, i)
    ensures Find(text, p) == i
  {
    assert Find(text, p) != -1;
    assert Count(text, p) == 1;
    CountOneIsOnly(text, p);
  }

  lemma PartsOccur(pre: string, first: string, mid: string, second: string, post: string)
    ensures
      var text, e := pre + first + mid + second + post, |pre| + |first| + |mid|;
      && OccursAt(text, first, |pre|) && OccursAt(text, second, e)
      && text[..|pre|] == pre && text[e + |second|..] == post
  {
    var text, e := pre + first + mid + second + post, |pre| + |first| + |mid|;
    assert text[|pre|..|pre| + |first|] == first;
    assert text[e..e + |second|] == second;
  }

  /** Where the marks of an accepted text are found, however it splits around them. */
  lemma SplitAtMarks(pre: string, mid: string, post: string)
    requires Accepted(pre + BEGIN_MARK + mid + END_MARK + post)
    ensures
      var text, e := pre + BEGIN_MARK + mid + END_MARK + post, |pre| + |BEGIN_MARK| + |mid|;
      && Find(text, BEGIN_MARK) == |pre| && Find(text, END_MARK) == e
      && text[..|pre|] == pre && e + |END_MARK| <= |text| && text[e + |END_MARK|..] == post
  {
    hide IsMark, OccursAt, Find, Count;
    MarksAreMarks();
    PartsOccur(pre, BEGIN_MARK, mid, END_MARK, post);
    FoundAt(pre + BEGIN_MARK + mid + END_MARK + post, BEGIN_MARK, |pre|);
    FoundAt(pre + BEGIN_MARK + mid + END_MARK + post, END_MARK, |pre| + |BEGIN_MARK| + |mid|);
  }

  /** However an accepted text splits around a block, the parts survive in order, trimmed
      only at their edges. */
  lemma UserTextSurvives(pre: string, mid: string, post: string, distro: string, machine: string)
    requires Accepted(pre + BEGIN_MARK + mid + END_MARK + post)
    ensures
      var (before, after) := (RStrip(pre), Strip(post));
      RenderLocalConf(pre + BEGIN_MARK + mid + END_MARK + post, distro, machine)
        == Ok(Rendering(if after == "" then before else before + "\n\n" + after, distro, machine))
  {
    SplitAtMarks(pre, mid, post);
    RenderIsRendering(pre + BEGIN_MARK + mid + END_MARK + post, distro, machine);
    hide Find, Accepted, RStrip, Strip, Rendering, RenderLocalConf;
  }

  // ---- What a rendering assigns ----

  const DISTRO_IS := "DISTRO = \""
  const MACHINE_IS := "MACHINE = \""
  const DL_DIR_IS := "DL_DIR ?= \""
  const SSTATE_DIR_IS := "SSTATE_DIR ?= \""
  const FEATURES_ARE := "EXTRA_IMAGE_FEATURES += \""

  /** The value a text gives last after a prefix. */
  function Assigned(text: string, prefix: string): Option<string>
  {
    LastGiven(SplitLines(text), prefix)
  }

  function DistroLine(distro: string): string
  {
    DISTRO_IS + distro + "\""
  }

  function MachineLine(machine: string): string
  {
    MACHINE_IS + machine + "\""
  }

  const DOWNLOADS := "${TOPDIR}/../downloads"
  const SSTATE_CACHE := "${TOPDIR}/../sstate-cache"
  const FEATURES: string :=
    "allow-empty-password " + "allow-root-login " + "empty-root-password " + "post-install-logging"

  /** The lines of a managed block, and the end of the text after it. */
  function BlockLines(distro: string, machine: string): seq<string>
  {
    [BEGIN_MARK, DistroLine(distro), MachineLine(machine), "", NOTE_DIRS, SET_DL, SET_SSTATE, "", NOTE_DEV,
     SET_FEATURES, END_MARK, ""]
  }

  lemma MarksAreLines()
    ensures SplitLines(BEGIN_MARK) == [BEGIN_MARK] && SplitLines(END_MARK) == [END_MARK]
  {
    MarksAreMarks();
    OneLine(BEGIN_MARK);
    OneLine(END_MARK);
  }

  lemma NotesAreLines()
    ensures SplitLines(NOTE_DIRS) == [NOTE_DIRS] && SplitLines(NOTE_DEV) == [NOTE_DEV]
  {
    FreeConcat3("# Keep reusable downloads ", "and shared-state output ", "outside tmp/.", '\n');
    FreeConcat3("# Development convenience only; ", "remove this from ", "a production image.", '\n');
    OneLine(NOTE_DIRS);
    OneLine(NOTE_DEV);
  }

  lemma PathsAreLines()
    ensures SplitLines(SET_DL) == [SET_DL] && SplitLines(SET_SSTATE) == [SET_SSTATE]
  {
    hide SplitLines;
    assert Free(SET_DL, '\n');
    assert Free(SET_SSTATE, '\n');
    FreeIsOneLine(SET_DL);
    FreeIsOneLine(SET_SSTATE);
  }

  lemma FeaturesAreFree(c: char)
    requires c == '#' || c == '\n'
    ensures Free(SET_FEATURES, c)
  {
    var first := "EXTRA_IMAGE_FEATURES += \"" + "allow-empty-password " + "allow-root-login ";
    FreeConcat3("EXTRA_IMAGE_FEATURES += \"", "allow-empty-password ", "allow-root-login ", c);
    FreeConcat3(first, "empty-root-password ", "post-install-logging\"", c);
  }

  lemma FeaturesAreALine()
    ensures SplitLines(SET_FEATURES) == [SET_FEATURES]
  {
    FeaturesAreFree('\n');
    FreeIsOneLine(SET_FEATURES);
  }

  lemma FreeIsOneLine(s: string)
    requires Free(s, '\n')
    ensures SplitLines(s) == [s]
  {
    OneLine(s);
  }

  lemma TokenLine(prefix: string, value: string)
    requires Free(prefix, '\n') && IsToken(value)
    ensures SplitLines(prefix + value + "\"") == [prefix + value + "\""]
  {
    hide SplitLines;
    FreeConcat3(prefix, value, "\"", '\n');
    FreeIsOneLine(prefix + value + "\"");
  }

  predicate IsLine(s: string)
  {
    SplitLines(s) == [s]
  }

  /** The lines of a text laid out like the managed block. */
  lemma LayoutSplit(begin: string, distro: string, machine: string, dirs: string, dl: string, sstate: string,
                    dev: string, features: string, end: string)
    requires IsLine(begin) && IsLine(distro) && IsLine(machine) && IsLine(dirs) && IsLine(dl) && IsLine(sstate)
    requires IsLine(dev) && IsLine(features) && IsLine(end) && IsLine("")
    ensures
      var settings := distro + "\n" + (machine + "\n" + ("" + "\n" + (
        dirs + "\n" + (dl + "\n" + (sstate + "\n" + ("" + "\n" + (dev + "\n" + features)))))));
      SplitLines(begin + "\n" + (settings + "\n" + end) + "\n" + "")
        == [begin, distro, machine, "", dirs, dl, sstate, "", dev, features, end, ""]
  {
    hide SplitLines;
    var s0 := dev + "\n" + features;
    var s1 := "" + "\n" + s0;
    var s2 := sstate + "\n" + s1;
    var s3 := dl + "\n" + s2;
    var s4 := dirs + "\n" + s3;
    var s5 := "" + "\n" + s4;
    var s6 := machine + "\n" + s5;
    var settings := distro + "\n" + s6;
    SplitAtBreak(dev, features);
    SplitAtBreak("", s0);
    SplitAtBreak(sstate, s1);
    SplitAtBreak(dl, s2);
    SplitAtBreak(dirs, s3);
    SplitAtBreak("", s4);
    SplitAtBreak(machine, s5);
    SplitAtBreak(distro, s6);
    SplitAtBreak(settings, end);
    SplitAtBreak(begin, settings + "\n" + end);
    SplitAtBreak(begin + "\n" + (settings + "\n" + end), "");
  }

  lemma LinesAreLines(distro: string, machine: string)
    requires IsToken(distro) && IsToken(machine)
    ensures IsLine(BEGIN_MARK) && IsLine(END_MARK) && IsLine(NOTE_DIRS) && IsLine(NOTE_DEV) && IsLine("")
    ensures IsLine(SET_DL) && IsLine(SET_SSTATE) && IsLine(SET_FEATURES)
    ensures IsLine(DistroLine(distro)) && IsLine(MachineLine(machine))
  {
    hide SplitLines, IsToken;
    MarksAreLines();
    NotesAreLines();
    PathsAreLines();
    FeaturesAreALine();
    TokenLine(DISTRO_IS, distro);
    TokenLine(MACHINE_IS, machine);
    FreeIsOneLine("");
  }

  lemma BlockSplit(distro: string, machine: string)
    requires IsToken(distro) && IsToken(machine)
    ensures SplitLines(Block(distro, machine) + "\n" + "") == BlockLines(distro, machine)
  {
    hide SplitLines, IsToken, IsLine;
    LinesAreLines(distro, machine);
    LayoutSplit(BEGIN_MARK, DistroLine(distro), MachineLine(machine), NOTE_DIRS, SET_DL, SET_SSTATE, NOTE_DEV,
                SET_FEATURES, END_MARK);
  }

  lemma RenderingSplit(user: string, distro: string, machine: string)
    requires IsToken(distro) && IsToken(machine)
    ensures SplitLines(Rendering(user, distro, machine)) == SplitLines(user) + [""] + BlockLines(distro, machine)
  {
    BlockSplit(distro, machine);
    FreeIsOneLine("");
    AfterUser(user, Block(distro, machine));
  }

  lemma AfterUser(user: string, block: string)
    requires SplitLines("") == [""]
    ensures SplitLines(user + "\n\n" + block + "\n") == SplitLines(user) + [""] + SplitLines(block + "\n" + "")
  {
    hide SplitLines;
    var last := block + "\n" + "";
    assert user + "\n\n" + block + "\n" == user + "\n" + ("" + "\n" + last);
    SplitAtBreak("", last);
    SplitAtBreak(user, "" + "\n" + last);
  }

  /** None of the comments, marks and empty lines gives a value. */
  lemma CommentsGiveNothing(prefix: string)
    requires prefix != "" && prefix[0] != '#'
    ensures !Gives(NOTE_DIRS, prefix) && !Gives(NOTE_DEV, prefix) && !Gives(END_MARK, prefix) && !Gives("", prefix)
  {
    NotGiven(NOTE_DIRS, prefix, 0);
    NotGiven(NOTE_DEV, prefix, 0);
    NotGiven(END_MARK, prefix, 0);
    NotGiven("", prefix, 0);
  }

  /** The fixed settings give their own values only. */
  lemma FixedGiveTheirOwn(prefix: string)
    requires |prefix| > 1
    ensures prefix[0] != 'D' || prefix[1] != 'L' ==> !Gives(SET_DL, prefix)
    ensures prefix[0] != 'S' ==> !Gives(SET_SSTATE, prefix)
    ensures prefix[0] != 'E' ==> !Gives(SET_FEATURES, prefix)
  {
    if prefix[0] != 'D' {
      NotGiven(SET_DL, prefix, 0);
    } else if prefix[1] != 'L' {
      NotGiven(SET_DL, prefix, 1);
    }
    if prefix[0] != 'S' {
      NotGiven(SET_SSTATE, prefix, 0);
    }
    if prefix[0] != 'E' {
      NotGiven(SET_FEATURES, prefix, 0);
    }
  }

  lemma BlockGivesDistro(before: seq<string>, distro: string, machine: string)
    ensures LastGiven(before + BlockLines(distro, machine), DISTRO_IS) == Some(distro)
    ensures LastGiven(before + BlockLines(distro, machine), MACHINE_IS) == Some(machine)
  {
    hide Gives, LastGiven;
    CommentsGiveNothing(DISTRO_IS);
    CommentsGiveNothing(MACHINE_IS);
    FixedGiveTheirOwn(DISTRO_IS);
    FixedGiveTheirOwn(MACHINE_IS);
    NotGiven(MachineLine(machine), DISTRO_IS, 0);
    GivenAt(before, BlockLines(distro, machine), 1, DISTRO_IS, distro);
    GivenAt(before, BlockLines(distro, machine), 2, MACHINE_IS, machine);
  }

  lemma BlockGivesDownloads(before: seq<string>, distro: string, machine: string)
    ensures LastGiven(before + BlockLines(distro, machine), DL_DIR_IS) == Some(DOWNLOADS)
  {
    hide Gives, LastGiven;
    CommentsGiveNothing(DL_DIR_IS);
    FixedGiveTheirOwn(DL_DIR_IS);
    assert SET_DL == DL_DIR_IS + DOWNLOADS + "\"";
    GivenAt(before, BlockLines(distro, machine), 5, DL_DIR_IS, DOWNLOADS);
  }

  lemma CacheLineIs()
    ensures SET_SSTATE == SSTATE_DIR_IS + SSTATE_CACHE + "\""
  {
  }

  lemma BlockGivesCache(before: seq<string>, distro: string, machine: string)
    ensures LastGiven(before + BlockLines(distro, machine), SSTATE_DIR_IS) == Some(SSTATE_CACHE)
  {
    hide Gives, LastGiven;
    CommentsGiveNothing(SSTATE_DIR_IS);
    FixedGiveTheirOwn(SSTATE_DIR_IS);
    CacheLineIs();
    GivenAt(before, BlockLines(distro, machine), 6, SSTATE_DIR_IS, SSTATE_CACHE);
  }

  lemma BlockGivesFeatures(before: seq<string>, distro: string, machine: string)
    ensures LastGiven(before + BlockLines(distro, machine), FEATURES_ARE) == Some(FEATURES)
  {
    hide Gives, LastGiven;
    CommentsGiveNothing(FEATURES_ARE);
    assert SET_FEATURES == FEATURES_ARE + FEATURES + "\"";
    GivenAt(before, BlockLines(distro, machine), 9, FEATURES_ARE, FEATURES);
  }

  /** Whatever the user text assigns before, a rendering assigns the requested distro and
      machine, the shared directories and the development features. */
  lemma RenderingAssigns(text: string, distro: string, machine: string)
    requires Accepted(text) && IsToken(distro) && IsToken(machine)
    ensures
      var r := RenderLocalConf(text, distro, machine).value;
      && Assigned(r, "DISTRO = \"") == Some(distro) && Assigned(r, "MACHINE = \"") == Some(machine)
      && Assigned(r, DL_DIR_IS) == Some(DOWNLOADS) && Assigned(r, SSTATE_DIR_IS) == Some(SSTATE_CACHE)
      && Assigned(r, FEATURES_ARE) == Some(FEATURES)
  {
    hide SplitLines, LastGiven, BlockLines, Accepted, IsToken, UserText, Rendering;
    RenderIsRendering(text, distro, machine);
    var before := SplitLines(UserText(text)) + [""];
    RenderingSplit(UserText(text), distro, machine);
    BlockGivesDistro(before, distro, machine);
    BlockGivesDownloads(before, distro, machine);
    BlockGivesCache(before, distro, machine);
    BlockGivesFeatures(before, distro, machine);
  }
}
