// Which entries the duplicate-key pass compares, for any lines (validate_ci.py).
//
// The pass keeps tuples of marks; the frames here are known by the line that opened them.
// As long as nothing was reported, different frames have different tuples, so the pass
// reports nothing exactly when no two entries that belong to one frame have the same key.

module MappingFrames {
  import opened Wrappers
  import opened MappingScopes

  /** A key and the mapping it belongs to: the number of a frame, or of a mapping's first line. */
  datatype Slot = Slot(node: nat, key: string)

  /** The slot of each line; None for a line without a key. */
  type Sheet = seq<Option<Slot>>

  predicate Unique(slots: Sheet)
  {
    forall i, j :: 0 <= i < j < |slots| && slots[i].Some? && slots[j].Some? ==> slots[i] != slots[j]
  }

  /** The stack of the pass, each frame known by the line that opened it: 2n for the item
      and 2n + 1 for the key of line n. The ground is number 0. */
  datatype Frames = Ground | On(below: Frames, indent: nat, id: nat)

  function Top(fs: Frames): nat
  {
    match fs
    case Ground => 0
    case On(_, _, id) => id
  }

  function PopFrames(fs: Frames, indent: nat): Frames
  {
    match fs
    case Ground => Ground
    case On(below, at, _) => if at >= indent then PopFrames(below, indent) else fs
  }

  /** The frames an entry's key belongs to. */
  function Under(fs: Frames, number: nat, line: Line): Frames
    requires line.Entry?
  {
    var base := PopFrames(fs, line.indent);
    if line.sequence > 0 then On(base, line.indent, 2 * number) else base
  }

  function After(fs: Frames, number: nat, line: Line): Frames
  {
    match line
    case Other => fs
    case Entry(indent, sequence, _, hasValue) =>
      var under := Under(fs, number, line);
      if hasValue then under else On(under, indent + sequence, 2 * number + 1)
  }

  function PlaceOf(fs: Frames, number: nat, line: Line): Option<Slot>
  {
    if line.Other? then None else Some(Slot(Top(Under(fs, number, line)), line.key))
  }

  /** The frame and key of each line, decided by indentation and item prefixes alone. */
  function Places(fs: Frames, number: nat, lines: seq<Line>): (places: Sheet)
    ensures |places| == |lines|
    ensures forall i :: 0 <= i < |lines| ==> (places[i].Some? <==> lines[i].Entry?)
    ensures forall i :: 0 <= i < |lines| && lines[i].Entry? ==> places[i].value.key == lines[i].key
    decreases |lines|
  {
    if lines == [] then []
    else [PlaceOf(fs, number + 1, lines[0])] + Places(After(fs, number + 1, lines[0]), number + 1, lines[1..])
  }

  /** The scopes on the stack are those of the frames. */
  predicate Match(stack: Stack, fs: Frames, m: map<nat, Scope>)
  {
    match stack
    case Bottom => fs == Ground && 0 in m && m[0] == Root
    case Push(below, indent, _) =>
      fs.On? && fs.indent == indent && fs.id in m && m[fs.id] == ScopeOf(stack) && Match(below, fs.below, m)
  }

  /** Different frames have different scopes, and every scope was counted. */
  predicate Injective(m: map<nat, Scope>, counts: Counts, bound: nat)
  {
    && (forall a, b :: a in m && b in m && m[a] == m[b] ==> a == b)
    && (forall a :: a in m ==> a < bound && Counted(m[a], counts))
  }

  /** A frame opened by a key stands below a scope in which that key was seen. */
  predicate Opened(m: map<nat, Scope>, seen: set<(Scope, string)>)
  {
    forall a :: a in m && m[a].Sub? && m[a].mark.Mapping? ==> (m[a].outer, m[a].mark.key) in seen
  }

  /** What was seen in scopes is what was seen in frames. */
  ghost predicate Mirrors(m: map<nat, Scope>, seen: set<(Scope, string)>, slots: set<Slot>)
  {
    && (forall x :: x in seen ==> exists a :: a in m && m[a] == x.0)
    && (forall a, k :: a in m ==> ((m[a], k) in seen <==> Slot(a, k) in slots))
    && (forall y :: y in slots ==> y.node in m)
  }

  ghost predicate Simulated(s: State, fs: Frames, slots: set<Slot>, m: map<nat, Scope>, bound: nat)
  {
    && Match(s.stack, fs, m) && Injective(m, s.counts, bound)
    && Opened(m, s.seen) && Mirrors(m, s.seen, slots)
  }

  lemma {:induction false} MatchTop(stack: Stack, fs: Frames, m: map<nat, Scope>)
    requires Match(stack, fs, m)
    ensures Top(fs) in m && m[Top(fs)] == ScopeOf(stack)
  {
  }

  lemma {:induction false} MatchPop(stack: Stack, fs: Frames, m: map<nat, Scope>, indent: nat)
    requires Match(stack, fs, m)
    ensures Match(PopTo(stack, indent), PopFrames(fs, indent), m)
  {
    if stack.Push? && stack.indent >= indent {
      MatchPop(stack.below, fs.below, m, indent);
    }
  }

  lemma {:induction false} MatchExtends(stack: Stack, fs: Frames, m: map<nat, Scope>, id: nat, scope: Scope)
    requires Match(stack, fs, m) && id !in m
    ensures Match(stack, fs, m[id := scope])
  {
    if stack.Push? {
      MatchExtends(stack.below, fs.below, m, id, scope);
    }
  }

  /** A new frame with a scope of its own keeps all of it. */
  lemma NewFrame(m: map<nat, Scope>, seen: set<(Scope, string)>, counts: Counts, slots: set<Slot>, bound: nat, scope: Scope)
    requires Injective(m, counts, bound) && Opened(m, seen) && Mirrors(m, seen, slots)
    requires Counted(scope, counts) && forall a :: a in m ==> m[a] != scope
    requires scope.Sub? && scope.mark.Mapping? ==> (scope.outer, scope.mark.key) in seen
    ensures
      var n := m[bound := scope];
      Injective(n, counts, bound + 1) && Opened(n, seen) && Mirrors(n, seen, slots)
  {
    NewInjective(m, counts, bound, scope);
    hide Injective, Mirrors;
    NewMirror(m, seen, slots, bound, scope);
  }

  lemma NewInjective(m: map<nat, Scope>, counts: Counts, bound: nat, scope: Scope)
    requires Injective(m, counts, bound) && Counted(scope, counts) && forall a :: a in m ==> m[a] != scope
    ensures bound !in m && Injective(m[bound := scope], counts, bound + 1)
  {
  }

  lemma NewMirror(m: map<nat, Scope>, seen: set<(Scope, string)>, slots: set<Slot>, bound: nat, scope: Scope)
    requires Mirrors(m, seen, slots) && bound !in m && forall a :: a in m ==> m[a] != scope
    ensures Mirrors(m[bound := scope], seen, slots)
  {
    var n := m[bound := scope];
    forall x | x in seen
      ensures exists a :: a in n && n[a] == x.0
    {
      var a :| a in m && m[a] == x.0;
      assert n[a] == x.0;
    }
    forall a, k | a in n
      ensures (n[a], k) in seen <==> Slot(a, k) in slots
    {
      if a == bound {
        UnseenAtNew(m, seen, slots, scope, k);
      } else {
        assert n[a] == m[a];
      }
    }
  }

  lemma UnseenAtNew(m: map<nat, Scope>, seen: set<(Scope, string)>, slots: set<Slot>, scope: Scope, key: string)
    requires Mirrors(m, seen, slots) && forall a :: a in m ==> m[a] != scope
    ensures (scope, key) !in seen
  {
    forall x | x in seen
      ensures x.0 != scope
    {
      var a :| a in m && m[a] == x.0;
    }
  }

  /** Entering an item opens a frame whose scope no other frame has. */
  lemma EnterSimulated(s: State, fs: Frames, slots: set<Slot>, m: map<nat, Scope>, bound: nat, indent: nat)
    returns (n: map<nat, Scope>)
    requires Simulated(s, fs, slots, m, bound)
    ensures Simulated(EnterItem(s, indent), On(PopFrames(fs, indent), indent, bound), slots, n, bound + 1)
  {
    hide Mirrors, Opened;
    var e := EnterItem(s, indent);
    var base := PopTo(s.stack, indent);
    MatchPop(s.stack, fs, m, indent);
    MatchTop(base, PopFrames(fs, indent), m);
    var newest := ScopeOf(e.stack);
    forall a | a in m
      ensures m[a] != newest && Counted(m[a], e.counts)
    {
      CountingKeepsCounted(m[a], s.counts, (ScopeOf(base), indent));
    }
    NewFrame(m, s.seen, e.counts, slots, bound, newest);
    n := m[bound := newest];
    MatchExtends(base, PopFrames(fs, indent), m, bound, newest);
  }

  /** Recording a key that was not seen keeps frames and scopes together. */
  lemma RecordSimulated(s: State, fs: Frames, slots: set<Slot>, m: map<nat, Scope>, bound: nat,
                        indent: nat, key: string, hasValue: bool)
    returns (n: map<nat, Scope>)
    requires Simulated(s, fs, slots, m, bound)
    ensures (ScopeOf(s.stack), key) in s.seen <==> Slot(Top(fs), key) in slots
    ensures Slot(Top(fs), key) !in slots ==>
              Simulated(Record(s, indent, key, hasValue), if hasValue then fs else On(fs, indent, bound),
                        slots + {Slot(Top(fs), key)}, n, bound + 1)
  {
    MatchTop(s.stack, fs, m);
    var scope, seen := ScopeOf(s.stack), s.seen + {(ScopeOf(s.stack), key)};
    var newest := Sub(scope, Mapping(key));
    n := if hasValue then m else m[bound := newest];
    if Slot(Top(fs), key) !in slots {
      SeenSimulated(s, fs, slots, m, key);
      if !hasValue {
        NewFrame(m, seen, s.counts, slots + {Slot(Top(fs), key)}, bound, newest);
        MatchExtends(s.stack, fs, m, bound, newest);
      }
    }
  }

  lemma SeenSimulated(s: State, fs: Frames, slots: set<Slot>, m: map<nat, Scope>, key: string)
    requires Match(s.stack, fs, m) && Opened(m, s.seen) && Mirrors(m, s.seen, slots)
    requires forall a, b :: a in m && b in m && m[a] == m[b] ==> a == b
    ensures
      var seen := s.seen + {(ScopeOf(s.stack), key)};
      Opened(m, seen) && Mirrors(m, seen, slots + {Slot(Top(fs), key)})
  {
    MatchTop(s.stack, fs, m);
  }

  lemma PopSimulated(s: State, fs: Frames, slots: set<Slot>, m: map<nat, Scope>, bound: nat, indent: nat)
    requires Simulated(s, fs, slots, m, bound)
    ensures Simulated(s.(stack := PopTo(s.stack, indent)), PopFrames(fs, indent), slots, m, bound)
  {
    MatchPop(s.stack, fs, m, indent);
  }

  lemma Renumbered(s: State, fs: Frames, slots: set<Slot>, m: map<nat, Scope>, bound: nat, number: nat, more: nat)
    requires Simulated(s, fs, slots, m, bound) && bound <= more
    ensures Simulated(s.(number := number), fs, slots, m, more)
  {
  }

  /** One line: an error exactly when its frame holds the key already; if not, all is kept. */
  lemma StepSimulated(s: State, fs: Frames, slots: set<Slot>, m: map<nat, Scope>, line: Line)
    returns (n: map<nat, Scope>)
    requires Simulated(s, fs, slots, m, 2 * (s.number + 1)) && s.errors == []
    ensures
      var t, place := Step(s, line), PlaceOf(fs, s.number + 1, line);
      && (t.errors == [] <==> place.None? || place.value !in slots)
      && (t.errors == [] ==>
            Simulated(t, After(fs, s.number + 1, line), slots + Held(place), n, 2 * (t.number + 1)))
  {
    hide Simulated, Injective, Opened, Mirrors, Match;
    n := m;
    var t := s.(number := s.number + 1);
    var bound := 2 * t.number;
    Renumbered(s, fs, slots, m, bound, t.number, bound);
    match line
    case Other =>
      Renumbered(s, fs, slots, m, bound, t.number, bound + 2);
      assert slots + {} == slots;
    case Entry(indent, sequence, key, hasValue) =>
      var u;
      if sequence > 0 {
        u := EnterItem(t, indent);
        n := EnterSimulated(t, fs, slots, m, bound, indent);
      } else {
        u := t.(stack := PopTo(t.stack, indent));
        PopSimulated(t, fs, slots, m, bound, indent);
        Renumbered(u, PopFrames(fs, indent), slots, m, bound, t.number, bound + 1);
      }
      n := RecordSimulated(u, Under(fs, t.number, line), slots, n, bound + 1, indent + sequence, key, hasValue);
  }

  function Held(place: Option<Slot>): set<Slot>
  {
    if place.Some? then {place.value} else {}
  }

  predicate Avoids(slots: Sheet, held: set<Slot>)
  {
    forall i :: 0 <= i < |slots| && slots[i].Some? ==> slots[i].value !in held
  }

  lemma UniqueCons(first: Option<Slot>, rest: Sheet, held: set<Slot>)
    ensures Unique([first] + rest) && Avoids([first] + rest, held)
       <==> Avoids([first], held) && Unique(rest) && Avoids(rest, held + Held(first))
  {
    var all := [first] + rest;
    assert forall i :: 0 <= i < |rest| ==> all[i + 1] == rest[i];
    if Unique(all) && Avoids(all, held) {
      assert all[0] == first;
      forall i | 0 <= i < |rest| && rest[i].Some?
        ensures rest[i].value !in held + Held(first)
      {
        assert all[i + 1] == rest[i];
      }
    }
    if Avoids([first], held) && Unique(rest) && Avoids(rest, held + Held(first)) {
      assert [first][0] == first;
      forall i, j | 0 <= i < j < |all| && all[i].Some? && all[j].Some?
        ensures all[i] != all[j]
      {
        assert all[j] == rest[j - 1];
      }
      forall i | 0 <= i < |all| && all[i].Some?
        ensures all[i].value !in held
      {
        if i > 0 { assert all[i] == rest[i - 1]; }
      }
    }
  }

  lemma {:induction false} RunKeepsErrors(s: State, lines: seq<Line>)
    requires s.errors != []
    ensures Run(s, lines).errors != []
    decreases |lines|
  {
    if lines != [] {
      RunKeepsErrors(Step(s, lines[0]), lines[1..]);
    }
  }

  lemma {:induction false} Simulates(s: State, fs: Frames, held: set<Slot>, m: map<nat, Scope>, lines: seq<Line>)
    requires Simulated(s, fs, held, m, 2 * (s.number + 1)) && s.errors == []
    ensures
      var places := Places(fs, s.number, lines);
      Run(s, lines).errors == [] <==> Unique(places) && Avoids(places, held)
    decreases |lines|
  {
    hide Simulated, Unique, Avoids;
    if lines == [] {
      NothingRepeats(held);
    } else {
      var place := PlaceOf(fs, s.number + 1, lines[0]);
      var n := StepSimulated(s, fs, held, m, lines[0]);
      var t := Step(s, lines[0]);
      var rest := Places(After(fs, s.number + 1, lines[0]), s.number + 1, lines[1..]);
      UniqueCons(place, rest, held);
      AvoidsOne(place, held);
      if t.errors == [] {
        Simulates(t, After(fs, s.number + 1, lines[0]), held + Held(place), n, lines[1..]);
      } else {
        RunKeepsErrors(t, lines[1..]);
      }
    }
  }

  lemma NothingRepeats(held: set<Slot>)
    ensures Unique([]) && Avoids([], held)
  {
  }

  lemma AvoidsOne(place: Option<Slot>, held: set<Slot>)
    ensures Avoids([place], held) <==> place.None? || place.value !in held
  {
    assert [place][0] == place;
  }

  /** On any lines whatever, the pass reports nothing exactly when no two entries that belong
      to one frame have the same key. */
  lemma ReportsExactlyTheRepeats(lines: seq<Line>)
    ensures Run(START, lines).errors == [] <==> Unique(Places(Ground, 0, lines))
  {
    var m: map<nat, Scope> := map[0 := Root];
    assert Simulated(START, Ground, {}, m, 2);
    Simulates(START, Ground, {}, m, lines);
  }

  // ---- What is reported ----

  /** The report names a line of the text, by number and by the key that stands on it. */
  predicate Names(e: Repeat, from: nat, lines: seq<Line>)
  {
    && from < e.number <= from + |lines|
    && lines[e.number - from - 1].Entry? && lines[e.number - from - 1].key == e.key
  }

  lemma StepReports(s: State, line: Line)
    ensures
      var t := Step(s, line);
      && t.number == s.number + 1
      && (t.errors == s.errors || (line.Entry? && t.errors == s.errors + [Repeat(t.number, line.key)]))
  {
  }

  /** On any lines, reports are in the order of the lines, at most one a line, and each
      names its line and its key. */
  lemma {:induction false} ReportsNameTheirLines(s: State, lines: seq<Line>)
    ensures
      var t := Run(s, lines);
      && |s.errors| <= |t.errors| && t.errors[..|s.errors|] == s.errors
      && (forall k :: |s.errors| <= k < |t.errors| ==> Names(t.errors[k], s.number, lines))
      && (forall k, l :: |s.errors| <= k < l < |t.errors| ==> t.errors[k].number < t.errors[l].number)
    decreases |lines|
  {
    hide Step;
    if lines != [] {
      var u := Step(s, lines[0]);
      StepReports(s, lines[0]);
      ReportsNameTheirLines(u, lines[1..]);
      var t := Run(s, lines);
      forall k | |s.errors| <= k < |t.errors| ensures Names(t.errors[k], s.number, lines) {
        if k < |u.errors| {
          assert t.errors[k] == t.errors[..|u.errors|][k];
        } else {
          assert Names(t.errors[k], u.number, lines[1..]);
        }
      }
      forall k, l | |s.errors| <= k < l < |t.errors| ensures t.errors[k].number < t.errors[l].number {
        if k < |u.errors| {
          assert t.errors[k] == t.errors[..|u.errors|][k];
          assert l >= |u.errors| && Names(t.errors[l], u.number, lines[1..]);
        }
      }
      assert t.errors[..|s.errors|] == t.errors[..|u.errors|][..|s.errors|];
    }
  }

  /** The first line whose slot an earlier line, or one already held, has taken. */
  predicate FirstTaken(places: Sheet, held: set<Slot>, j: nat)
  {
    && j < |places| && places[j].Some?
    && (places[j].value in held || exists i :: 0 <= i < j && places[i] == places[j])
    && Unique(places[..j]) && Avoids(places[..j], held)
  }

  lemma {:induction false} FirstTakenIsReported(
      s: State, fs: Frames, held: set<Slot>, m: map<nat, Scope>, lines: seq<Line>, j: nat)
    requires Simulated(s, fs, held, m, 2 * (s.number + 1)) && s.errors == []
    requires FirstTaken(Places(fs, s.number, lines), held, j)
    ensures
      && j < |lines| && lines[j].Entry?
      && Run(s, lines).errors != [] && Run(s, lines).errors[0] == Repeat(s.number + j + 1, lines[j].key)
    decreases |lines|
  {
    hide Simulated, Step;
    var place := PlaceOf(fs, s.number + 1, lines[0]);
    var n := StepSimulated(s, fs, held, m, lines[0]);
    var t := Step(s, lines[0]);
    var places := Places(fs, s.number, lines);
    var rest := Places(After(fs, s.number + 1, lines[0]), s.number + 1, lines[1..]);
    assert places == [place] + rest;
    StepReports(s, lines[0]);
    ReportsNameTheirLines(t, lines[1..]);
    if j == 0 {
      assert t.errors == [Repeat(t.number, lines[0].key)];
      assert Run(s, lines).errors[0] == Run(s, lines).errors[..1][0];
    } else {
      assert places[..j] == [place] + rest[..j - 1];
      UniqueCons(place, rest[..j - 1], held);
      AvoidsOne(place, held);
      assert rest[j - 1] == places[j];
      forall i | 0 < i < j && places[i] == places[j] ensures rest[i - 1] == rest[j - 1] {
      }
      assert FirstTaken(rest, held + Held(place), j - 1);
      FirstTakenIsReported(t, After(fs, s.number + 1, lines[0]), held + Held(place), n, lines[1..], j - 1);
    }
  }

  lemma StartSimulated() returns (s: State, m: map<nat, Scope>)
    ensures s == START && s.number == 0 && s.errors == []
    ensures Simulated(s, Ground, {}, m, 2 * (s.number + 1))
  {
    s, m := START, map[0 := Root];
  }

  /** On any lines whatever, the first report is of the first entry whose frame has its key
      already, by its line number and key. */
  lemma FirstRepeatIsReported(lines: seq<Line>, j: nat)
    requires FirstTaken(Places(Ground, 0, lines), {}, j)
    ensures
      && j < |lines| && lines[j].Entry?
      && Run(START, lines).errors != [] && Run(START, lines).errors[0] == Repeat(j + 1, lines[j].key)
  {
    hide *;
    var s, m := StartSimulated();
    FirstTakenIsReported(s, Ground, {}, m, lines, j);
  }
}
