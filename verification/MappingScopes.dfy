// Duplicate mapping keys found by one pass over indented lines (validate_ci.py).
//
// A line is either a mapping entry - its indentation, the length of its "- " prefix
// (0 without one), its key and whether a value follows the colon - or something the
// pass skips. The theorem at the end runs the pass on the rendering of a tree of mappings
// and sequences, at arbitrary indentation steps, in which a mapping that begins on the line
// of two items has a single key, and that key no mapping as its value. Other trees are the
// subject of MappingLayouts.

module MappingScopes {
  import opened Wrappers

  datatype Line =
    | Other
    | Entry(indent: nat, sequence: nat, key: string, hasValue: bool)

  datatype Mark = Item(indent: nat, count: nat) | Mapping(key: string)

  /** The tuple of marks on the stack, innermost last. */
  datatype Scope = Root | Sub(outer: Scope, mark: Mark)

  datatype Stack = Bottom | Push(below: Stack, indent: nat, mark: Mark)

  type Counts = map<(Scope, nat), nat>

  datatype Repeat = Repeat(number: nat, key: string)

  datatype State = State(
    number: nat,                 // lines read so far
    stack: Stack,
    counts: Counts,              // items seen per scope and indentation
    seen: set<(Scope, string)>,
    errors: seq<Repeat>)

  const START := State(0, Bottom, map[], {}, [])

  function ScopeOf(stack: Stack): Scope
  {
    match stack
    case Bottom => Root
    case Push(below, _, mark) => Sub(ScopeOf(below), mark)
  }

  /** The stack without the frames at or beyond an indentation. */
  function PopTo(stack: Stack, indent: nat): Stack
  {
    match stack
    case Bottom => Bottom
    case Push(below, at, _) => if at >= indent then PopTo(below, indent) else stack
  }

  function CountOf(counts: Counts, key: (Scope, nat)): nat
  {
    if key in counts then counts[key] else 0
  }

  /** Record a key in the current scope, then open a scope if no value follows. */
  function Record(s: State, indent: nat, key: string, hasValue: bool): State
  {
    var identity := (ScopeOf(s.stack), key);
    State(
      s.number,
      if hasValue then s.stack else Push(s.stack, indent, Mapping(key)),
      s.counts,
      s.seen + {identity},
      if identity in s.seen then s.errors + [Repeat(s.number, key)] else s.errors)
  }

  /** Enter the next item of the sequence at an indentation. */
  function EnterItem(s: State, indent: nat): State
  {
    var stack := PopTo(s.stack, indent);
    var count := CountOf(s.counts, (ScopeOf(stack), indent)) + 1;
    s.(stack := Push(stack, indent, Item(indent, count)),
       counts := s.counts[(ScopeOf(stack), indent) := count])
  }

  function Step(s: State, line: Line): State
  {
    var t := s.(number := s.number + 1);
    match line
    case Other => t
    case Entry(indent, sequence, key, hasValue) =>
      if sequence > 0 then Record(EnterItem(t, indent), indent + sequence, key, hasValue)
      else Record(t.(stack := PopTo(t.stack, indent)), indent, key, hasValue)
  }

  function Run(s: State, lines: seq<Line>): State
    decreases |lines|
  {
    if lines == [] then s else Run(Step(s, lines[0]), lines[1..])
  }

  lemma {:induction false} RunConcat(s: State, a: seq<Line>, b: seq<Line>)
    ensures Run(s, a + b) == Run(Run(s, a), b)
    decreases |a|
  {
    if a == [] {
      assert a + b == b;
    } else {
      assert (a + b)[1..] == a[1..] + b;
      RunConcat(Step(s, a[0]), a[1..], b);
    }
  }

  /** The pass itself. */
  method ValidateDuplicateMappings(lines: seq<Line>) returns (errors: seq<Repeat>)
    ensures errors == Run(START, lines).errors
  {
    errors := [];
    var stack := Bottom;
    var counts: Counts := map[];
    var seen: set<(Scope, string)> := {};
    var number := 0;
    while number < |lines|
      invariant number <= |lines|
      invariant Run(START, lines) == Run(State(number, stack, counts, seen, errors), lines[number..])
    {
      var line := lines[number];
      ghost var before := State(number, stack, counts, seen, errors);
      assert lines[number..][1..] == lines[number + 1..];
      number := number + 1;
      match line
      case Other =>
      case Entry(indent, sequence, key, hasValue) =>
        ghost var entry := stack;
        var effective := indent + sequence;
        while stack.Push? && stack.indent >= indent
          invariant PopTo(stack, indent) == PopTo(entry, indent)
          decreases stack
        {
          stack := stack.below;
        }
        if sequence > 0 {
          var sequenceKey := (ScopeOf(stack), indent);
          var count := CountOf(counts, sequenceKey) + 1;
          counts := counts[sequenceKey := count];
          stack := Push(stack, indent, Item(indent, count));
        }
        var identity := (ScopeOf(stack), key);
        if identity in seen {
          errors := errors + [Repeat(number, key)];
        } else {
          seen := seen + {identity};
        }
        if !hasValue {
          stack := Push(stack, effective, Mapping(key));
        }
        assert seen == before.seen + {identity};
        assert State(number, stack, counts, seen, errors) == Step(before, line);
    }
  }

  // ---- Trees and their rendering ----

  /** A nested mapping sits at least one column deeper than its key; a sequence may sit at
      the key's own column. `gap` is the number of extra blanks after "- ". The first line of
      a sequence that is itself an item stands on the item's line. */
  datatype Value =
    | Scalar
    | Null
    | Nested(step: nat, entries: Entries)
    | Sequence(offset: nat, items: Items)

  datatype Entries = NoEntries | MoreEntries(key: string, value: Value, rest: Entries)

  datatype Items =
    | NoItems
    | PlainItem(rest: Items)
    | MappingItem(gap: nat, key: string, value: Value, more: Entries, rest: Items)
    | NestedItem(gap: nat, items: Items, rest: Items)

  function RenderEntries(es: Entries, indent: nat): seq<Line>
  {
    match es
    case NoEntries => []
    case MoreEntries(key, value, rest) =>
      [Entry(indent, 0, key, value.Scalar?)] + RenderValue(value, indent) + RenderEntries(rest, indent)
  }

  function RenderValue(value: Value, indent: nat): seq<Line>
  {
    match value
    case Scalar => []
    case Null => []
    case Nested(step, entries) => RenderEntries(entries, indent + 1 + step)
    case Sequence(offset, items) => RenderItems(items, indent + offset)
  }

  function Tail<T>(s: seq<T>): seq<T>
  {
    if s == [] then [] else s[1..]
  }

  /** A line with two item prefixes is not recognised as an entry, whatever follows them. */
  function RenderItems(items: Items, indent: nat): seq<Line>
  {
    match items
    case NoItems => []
    case PlainItem(rest) => [Other] + RenderItems(rest, indent)
    case MappingItem(gap, key, value, more, rest) =>
      var inner := indent + 2 + gap;
      [Entry(indent, 2 + gap, key, value.Scalar?)] + RenderValue(value, inner)
        + RenderEntries(more, inner) + RenderItems(rest, indent)
    case NestedItem(gap, inner, rest) =>
      [Other] + Tail(RenderItems(inner, indent + 2 + gap)) + RenderItems(rest, indent)
  }

  /** Every mapping node has pairwise distinct keys, none of them in `taken`. */
  predicate Distinct(es: Entries, taken: set<string>)
  {
    match es
    case NoEntries => true
    case MoreEntries(key, value, rest) =>
      key !in taken && DistinctValue(value) && Distinct(rest, taken + {key})
  }

  predicate DistinctValue(value: Value)
  {
    match value
    case Scalar => true
    case Null => true
    case Nested(_, entries) => Distinct(entries, {})
    case Sequence(_, items) => DistinctItems(items)
  }

  predicate DistinctItems(items: Items)
  {
    match items
    case NoItems => true
    case PlainItem(rest) => DistinctItems(rest)
    case MappingItem(_, key, value, more, rest) =>
      DistinctValue(value) && Distinct(more, {key}) && DistinctItems(rest)
    case NestedItem(_, inner, rest) => DistinctItems(inner) && DistinctItems(rest)
  }

  /** A mapping whose first key stands behind two item prefixes has no second key, and no
      mapping as the value of the first. */
  predicate Flat(es: Entries)
  {
    match es
    case NoEntries => true
    case MoreEntries(_, value, rest) => FlatValue(value) && Flat(rest)
  }

  predicate FlatValue(value: Value)
  {
    match value
    case Scalar => true
    case Null => true
    case Nested(_, entries) => Flat(entries)
    case Sequence(_, items) => FlatItems(items)
  }

  predicate FlatItems(items: Items)
  {
    match items
    case NoItems => true
    case PlainItem(rest) => FlatItems(rest)
    case MappingItem(_, _, value, more, rest) => FlatValue(value) && Flat(more) && FlatItems(rest)
    case NestedItem(_, inner, rest) => FlatFirst(inner) && FlatItems(rest)
  }

  /** The items of a sequence whose first line stands on the line of an outer item. */
  predicate FlatFirst(items: Items)
  {
    match items
    case NoItems => true
    case PlainItem(rest) => FlatItems(rest)
    case MappingItem(_, _, value, more, rest) =>
      more.NoEntries? && !value.Nested? && FlatValue(value) && FlatItems(rest)
    case NestedItem(_, inner, rest) => FlatFirst(inner) && FlatItems(rest)
  }

  // ---- What the pass keeps ----

  /** The mark by which `scope` leads towards `inner`, if `inner` lies below it. */
  function ChildOf(scope: Scope, inner: Scope): Option<Mark>
  {
    match inner
    case Root => None
    case Sub(outer, mark) => if outer == scope then Some(mark) else ChildOf(scope, outer)
  }

  function Depth(scope: Scope): nat
  {
    match scope
    case Root => 0
    case Sub(outer, _) => 1 + Depth(outer)
  }

  /** Every item mark of a scope was counted. */
  predicate Counted(scope: Scope, counts: Counts)
  {
    match scope
    case Root => true
    case Sub(outer, mark) =>
      && Counted(outer, counts)
      && (mark.Item? ==> mark.count <= CountOf(counts, (outer, mark.indent)))
  }

  predicate Sound(s: State)
  {
    && Counted(ScopeOf(s.stack), s.counts)
    && forall x :: x in s.seen ==> Counted(x.0, s.counts)
  }

  /** Only keys in `scope` or below it were added, and no error was dropped. */
  predicate Grown(s: State, t: State, scope: Scope)
  {
    && s.seen <= t.seen
    && (forall x :: x in t.seen && x !in s.seen ==> x.0 == scope || ChildOf(scope, x.0).Some?)
    && s.errors <= t.errors
  }

  /** In `scope` exactly the keys in `taken` were seen; below it, no mapping key outside them leads. */
  ghost predicate Fresh(s: State, scope: Scope, taken: set<string>)
  {
    && (forall k :: (scope, k) in s.seen <==> k in taken)
    && forall x :: x in s.seen ==>
         var child := ChildOf(scope, x.0);
         child.Some? && child.value.Mapping? ==> child.value.key in taken
  }

  /** No key seen so far lies below `scope` through this mark. */
  predicate Unopened(s: State, scope: Scope, mark: Mark)
  {
    forall x :: x in s.seen ==> ChildOf(scope, x.0) != Some(mark)
  }

  /** Everything new lies below `scope`, through an item or this key. */
  predicate OpenedBy(s: State, t: State, scope: Scope, key: string)
  {
    forall x :: x in t.seen && x !in s.seen ==>
      var child := ChildOf(scope, x.0);
      child.Some? && (child.value.Mapping? ==> child.value.key == key)
  }

  /** Everything new lies below `scope`, through an item or the key it may lead through. */
  predicate OpenedThrough(s: State, t: State, scope: Scope, through: Option<string>)
  {
    forall x :: x in t.seen && x !in s.seen ==>
      var child := ChildOf(scope, x.0);
      child.Some? && (child.value.Mapping? ==> through == Some(child.value.key))
  }

  /** What stands on `base`, if anything, stands on an item or on the frame of that key. */
  predicate Above(stack: Stack, base: Stack, through: Option<string>)
  {
    stack == base ||
    (stack.Push? &&
     if stack.below == base then stack.mark.Item? || through == Some(stack.mark.key)
     else Above(stack.below, base, through))
  }

  lemma {:induction false} PopPop(stack: Stack, low: nat, high: nat)
    requires low <= high
    ensures PopTo(PopTo(stack, high), low) == PopTo(stack, low)
  {
    if stack.Push? && stack.indent >= high {
      PopPop(stack.below, low, high);
    }
  }

  lemma {:induction false} PopTop(stack: Stack, indent: nat)
    ensures PopTo(stack, indent).Push? ==> PopTo(stack, indent).indent < indent
  {
    if stack.Push? && stack.indent >= indent {
      PopTop(stack.below, indent);
    }
  }

  lemma {:induction false} PopAbove(stack: Stack, base: Stack, deep: nat, indent: nat, through: Option<string>)
    requires Above(stack, base, through) && PopTo(stack, indent) == base && indent <= deep
    ensures Above(PopTo(stack, deep), base, through)
  {
    PopTop(stack, indent);
    if stack != base && stack.indent >= deep && stack.below != base {
      PopAbove(stack.below, base, deep, indent, through);
    }
  }

  /** Any stack stands on what popping leaves of it, by some key. */
  lemma {:induction false} SomeAbove(stack: Stack, deep: nat) returns (through: Option<string>)
    ensures Above(stack, PopTo(stack, deep), through)
  {
    through := None;
    if stack.Push? && stack.indent >= deep {
      if stack.below == PopTo(stack.below, deep) {
        through := if stack.mark.Mapping? then Some(stack.mark.key) else None;
      } else {
        through := SomeAbove(stack.below, deep);
      }
    }
  }

  function Height(stack: Stack): nat
  {
    if stack.Bottom? then 0 else 1 + Height(stack.below)
  }

  lemma {:induction false} AboveIsTaller(stack: Stack, base: Stack, through: Option<string>)
    requires Above(stack, base, through)
    ensures stack == base || Height(stack) > Height(base)
  {
    if stack != base && stack.below != base {
      AboveIsTaller(stack.below, base, through);
    }
  }

  lemma {:induction false} AboveIsTransitive(
    stack: Stack, middle: Stack, base: Stack, inner: Option<string>, through: Option<string>)
    requires Above(stack, middle, inner) && Above(middle, base, through) && middle != base
    ensures Above(stack, base, through)
  {
    AboveIsTaller(middle, base, through);
    if stack != middle && stack.below != middle {
      AboveIsTaller(stack.below, middle, inner);
      AboveIsTransitive(stack.below, middle, base, inner, through);
    }
  }

  lemma ItemAbove(stack: Stack, deep: nat, base: Stack, through: Option<string>)
    requires PopTo(stack, deep).Push? && PopTo(stack, deep).below == base && PopTo(stack, deep).mark.Item?
    ensures Above(stack, base, through)
  {
    var below := SomeAbove(stack, deep);
    assert Height(PopTo(stack, deep)) > Height(base);
    AboveIsTransitive(stack, PopTo(stack, deep), base, below, through);
  }

  /** What lies in or below the scope of a stack above `base` lies below that of `base`. */
  lemma {:induction false} AboveLeads(stack: Stack, base: Stack, through: Option<string>, inner: Scope)
    requires Above(stack, base, through) && stack != base
    requires inner == ScopeOf(stack) || ChildOf(ScopeOf(stack), inner).Some?
    ensures
      var child := ChildOf(ScopeOf(base), inner);
      child.Some? && (child.value.Mapping? ==> through == Some(child.value.key))
  {
    ChildLeads(ScopeOf(stack.below), stack.mark, inner);
    if stack.below != base {
      AboveLeads(stack.below, base, through, inner);
    }
  }

  lemma {:induction false} PoppedIsCounted(stack: Stack, indent: nat, counts: Counts)
    requires Counted(ScopeOf(stack), counts)
    ensures Counted(ScopeOf(PopTo(stack, indent)), counts)
  {
    if stack.Push? && stack.indent >= indent {
      PoppedIsCounted(stack.below, indent, counts);
    }
  }

  lemma {:induction false} CountingKeepsCounted(scope: Scope, counts: Counts, key: (Scope, nat))
    requires Counted(scope, counts)
    ensures Counted(scope, counts[key := CountOf(counts, key) + 1])
  {
    if scope.Sub? {
      CountingKeepsCounted(scope.outer, counts, key);
    }
  }

  lemma {:induction false} BelowIsDeeper(scope: Scope, inner: Scope)
    requires ChildOf(scope, inner).Some?
    ensures Depth(inner) > Depth(scope)
  {
    if inner.outer != scope {
      BelowIsDeeper(scope, inner.outer);
    }
  }

  /** What lies at or below a child scope lies below its parent, through the child's mark. */
  lemma {:induction false} ChildLeads(scope: Scope, mark: Mark, inner: Scope)
    requires inner == Sub(scope, mark) || ChildOf(Sub(scope, mark), inner).Some?
    ensures ChildOf(scope, inner) == Some(mark)
  {
    if inner != Sub(scope, mark) {
      if inner.outer == scope {
        BelowIsDeeper(Sub(scope, mark), inner);
        assert false;
      }
      ChildLeads(scope, mark, inner.outer);
    }
  }

  /** A counted scope only passes through items that were counted. */
  lemma {:induction false} ItemIsCounted(scope: Scope, mark: Mark, inner: Scope, counts: Counts)
    requires mark.Item? && ChildOf(scope, inner) == Some(mark) && Counted(inner, counts)
    ensures mark.count <= CountOf(counts, (scope, mark.indent))
  {
    if inner.outer != scope {
      ItemIsCounted(scope, mark, inner.outer, counts);
    }
  }

  // ---- One recorded key ----

  /** The state right after a key was recorded in the scope of `base`. */
  predicate Recorded(s: State, t: State, indent: nat, key: string, hasValue: bool, base: Stack)
  {
    && t.counts == s.counts
    && t.stack == (if hasValue then base else Push(base, indent, Mapping(key)))
    && t.seen == s.seen + {(ScopeOf(base), key)}
    && s.errors <= t.errors
    && (t.errors == s.errors <==> (ScopeOf(base), key) !in s.seen)
  }

  lemma RecordKeeps(s: State, indent: nat, key: string, hasValue: bool)
    requires Sound(s) && PopTo(s.stack, indent) == s.stack
    ensures var t := Record(s, indent, key, hasValue);
      Recorded(s, t, indent, key, hasValue, s.stack) && Sound(t) && PopTo(t.stack, indent) == s.stack
  {
  }

  lemma PlainStep(s: State, indent: nat, key: string, hasValue: bool, base: Stack)
    requires Sound(s) && PopTo(s.stack, indent) == base
    ensures var t := Step(s, Entry(indent, 0, key, hasValue));
      Recorded(s, t, indent, key, hasValue, base) && Sound(t) && PopTo(t.stack, indent) == base
  {
    PoppedIsCounted(s.stack, indent, s.counts);
    PopPop(s.stack, indent, indent);
    RecordKeeps(s.(number := s.number + 1, stack := base), indent, key, hasValue);
  }

  /** The mark of the item entered at an indentation. */
  function NextItem(s: State, indent: nat, base: Stack): Mark
  {
    Item(indent, CountOf(s.counts, (ScopeOf(base), indent)) + 1)
  }

  /** Entering an item opens a scope that no key was seen in or below before. */
  lemma EnterKeeps(s: State, indent: nat, base: Stack)
    requires Sound(s) && PopTo(s.stack, indent) == base
    ensures
      var e := EnterItem(s, indent);
      && e.stack == Push(base, indent, NextItem(s, indent, base))
      && Sound(e)
      && Fresh(e, ScopeOf(e.stack), {})
  {
    var e := EnterItem(s, indent);
    var scope, mark := ScopeOf(base), NextItem(s, indent, base);
    PoppedIsCounted(s.stack, indent, s.counts);
    CountingKeepsCounted(scope, s.counts, (scope, indent));
    forall x | x in s.seen
      ensures Counted(x.0, e.counts)
      ensures x.0 != Sub(scope, mark) && ChildOf(Sub(scope, mark), x.0).None?
    {
      CountingKeepsCounted(x.0, s.counts, (scope, indent));
      if x.0 == Sub(scope, mark) || ChildOf(Sub(scope, mark), x.0).Some? {
        ChildLeads(scope, mark, x.0);
        ItemIsCounted(scope, mark, x.0, s.counts);
      }
    }
  }

  // ---- Putting the parts together ----

  lemma GrownIsTransitive(s: State, t: State, u: State, scope: Scope)
    requires Grown(s, t, scope) && Grown(t, u, scope)
    ensures Grown(s, u, scope)
    ensures u.errors == s.errors <==> t.errors == s.errors && u.errors == t.errors
  {
  }

  lemma RecordedIsGrown(s: State, t: State, scope: Scope, key: string, taken: set<string>)
    requires t.seen == s.seen + {(scope, key)} && s.errors <= t.errors
    ensures Grown(s, t, scope)
    ensures Fresh(s, scope, taken) && key !in taken ==>
              Unopened(t, scope, Mapping(key)) && Fresh(t, scope, taken + {key})
  {
    if ChildOf(scope, scope).Some? { BelowIsDeeper(scope, scope); }
  }

  lemma FreshAfterValue(s: State, t: State, scope: Scope, key: string, taken: set<string>)
    requires Fresh(s, scope, taken) && key in taken && s.seen <= t.seen && OpenedBy(s, t, scope, key)
    ensures Fresh(t, scope, taken)
  {
    if ChildOf(scope, scope).Some? { BelowIsDeeper(scope, scope); }
  }

  /** An entry's three parts together: its key, its value, the entries after it. */
  lemma CombineEntry(
    s: State, t1: State, t2: State, t3: State, scope: Scope, key: string, taken: set<string>, value: bool, rest: bool)
    requires t1.seen == s.seen + {(scope, key)} && s.errors <= t1.errors
    requires t1.errors == s.errors <==> (scope, key) !in s.seen
    requires Grown(t1, t2, scope) && OpenedBy(t1, t2, scope, key)
    requires Unopened(t1, scope, Mapping(key)) ==> (value <==> t2.errors == t1.errors)
    requires Grown(t2, t3, scope)
    requires Fresh(t2, scope, taken + {key}) ==> (rest <==> t3.errors == t2.errors)
    ensures Grown(s, t3, scope)
    ensures Fresh(s, scope, taken) ==> (key !in taken && value && rest <==> t3.errors == s.errors)
  {
    RecordedIsGrown(s, t1, scope, key, taken);
    GrownIsTransitive(s, t1, t2, scope);
    GrownIsTransitive(s, t2, t3, scope);
    if Fresh(s, scope, taken) && key !in taken {
      FreshAfterValue(t1, t2, scope, key, taken + {key});
    }
  }

  /** What grew below a child scope grew below its parent, through the child's mark. */
  lemma GrownBelow(s: State, t: State, scope: Scope, mark: Mark)
    requires Grown(s, t, Sub(scope, mark))
    ensures Grown(s, t, scope)
    ensures forall x :: x in t.seen && x !in s.seen ==> ChildOf(scope, x.0) == Some(mark)
  {
    forall x | x in t.seen && x !in s.seen
      ensures ChildOf(scope, x.0) == Some(mark)
    {
      ChildLeads(scope, mark, x.0);
    }
  }

  lemma UnopenedIsFresh(s: State, scope: Scope, mark: Mark)
    requires Unopened(s, scope, mark)
    ensures Fresh(s, Sub(scope, mark), {})
  {
    forall x | x in s.seen && (x.0 == Sub(scope, mark) || ChildOf(Sub(scope, mark), x.0).Some?)
      ensures false
    {
      ChildLeads(scope, mark, x.0);
    }
  }

  /** Running the rendering of one entry and of what follows it. */
  lemma RunParts(s: State, first: Line, values: seq<Line>, others: seq<Line>)
    ensures Run(s, [first] + values + others) == Run(Run(Step(s, first), values), others)
  {
    assert ([first] + values)[1..] == values;
    RunConcat(s, [first] + values, others);
  }

  // ---- The pass over a rendering ----

  predicate PassedEntries(s: State, t: State, indent: nat, base: Stack)
  {
    Sound(t) && PopTo(t.stack, indent) == base && Grown(s, t, ScopeOf(base))
  }

  predicate PassedValue(s: State, t: State, indent: nat, base: Stack, key: string, distinct: bool)
  {
    && PassedEntries(s, t, indent, base) && OpenedBy(s, t, ScopeOf(base), key)
    && (Unopened(s, ScopeOf(base), Mapping(key)) ==> (distinct <==> t.errors == s.errors))
  }

  predicate PassedItems(s: State, t: State, indent: nat, base: Stack, through: Option<string>, distinct: bool)
  {
    && PassedEntries(s, t, indent, base) && OpenedThrough(s, t, ScopeOf(base), through)
    && Above(t.stack, base, through)
    && (distinct <==> t.errors == s.errors)
  }

  lemma {:induction false} EntriesPass(es: Entries, indent: nat, s: State, base: Stack, taken: set<string>)
    requires Flat(es)
    requires Sound(s) && PopTo(s.stack, indent) == base
    ensures
      var t := Run(s, RenderEntries(es, indent));
      && PassedEntries(s, t, indent, base)
      && (Fresh(s, ScopeOf(base), taken) ==> (Distinct(es, taken) <==> t.errors == s.errors))
    decreases es, 0
  {
    match es
    case NoEntries =>
    case MoreEntries(key, value, rest) =>
      var line := Entry(indent, 0, key, value.Scalar?);
      RunParts(s, line, RenderValue(value, indent), RenderEntries(rest, indent));
      PlainStep(s, indent, key, value.Scalar?, base);
      var t1 := Step(s, line);
      ValuePass(value, indent, t1, base, key);
      var t2 := Run(t1, RenderValue(value, indent));
      EntriesPass(rest, indent, t2, base, taken + {key});
      var t3 := Run(t2, RenderEntries(rest, indent));
      CombineEntry(s, t1, t2, t3, ScopeOf(base), key, taken, DistinctValue(value), Distinct(rest, taken + {key}));
  }

  lemma {:induction false} ValuePass(value: Value, indent: nat, s: State, base: Stack, key: string)
    requires FlatValue(value)
    requires Sound(s) && PopTo(s.stack, indent) == base
    requires s.stack == if value.Scalar? then base else Push(base, indent, Mapping(key))
    ensures PassedValue(s, Run(s, RenderValue(value, indent)), indent, base, key, DistinctValue(value))
    decreases value, 0
  {
    match value
    case Scalar =>
    case Null =>
    case Nested(step, entries) => NestedPass(step, entries, indent, s, base, key);
    case Sequence(offset, items) => SequencePass(offset, items, indent, s, base, key);
  }

  lemma {:induction false} NestedPass(step: nat, entries: Entries, indent: nat, s: State, base: Stack, key: string)
    requires Flat(entries)
    requires Sound(s) && PopTo(s.stack, indent) == base
    requires s.stack == Push(base, indent, Mapping(key))
    ensures PassedValue(s, Run(s, RenderEntries(entries, indent + 1 + step)), indent, base, key, Distinct(entries, {}))
    decreases entries, 1
  {
    var inner := indent + 1 + step;
    EntriesPass(entries, inner, s, s.stack, {});
    var t := Run(s, RenderEntries(entries, inner));
    PopPop(t.stack, indent, inner);
    GrownBelow(s, t, ScopeOf(base), Mapping(key));
    if Unopened(s, ScopeOf(base), Mapping(key)) { UnopenedIsFresh(s, ScopeOf(base), Mapping(key)); }
  }

  lemma {:induction false} SequencePass(offset: nat, items: Items, indent: nat, s: State, base: Stack, key: string)
    requires FlatItems(items)
    requires Sound(s) && PopTo(s.stack, indent) == base
    requires s.stack == Push(base, indent, Mapping(key))
    ensures PassedValue(s, Run(s, RenderItems(items, indent + offset)), indent, base, key, DistinctItems(items))
    decreases items, 3
  {
    var inner := indent + offset;
    if offset == 0 {
      ItemsPass(items, inner, s, base, Some(key));
    } else {
      ItemsPass(items, inner, s, s.stack, None);
      var t := Run(s, RenderItems(items, inner));
      PopPop(t.stack, indent, inner);
      GrownBelow(s, t, ScopeOf(base), Mapping(key));
    }
  }

  lemma {:induction false} ItemsPass(items: Items, indent: nat, s: State, base: Stack, through: Option<string>)
    requires FlatItems(items)
    requires Sound(s) && PopTo(s.stack, indent) == base && Above(s.stack, base, through)
    ensures PassedItems(s, Run(s, RenderItems(items, indent)), indent, base, through, DistinctItems(items))
    decreases items, 2
  {
    hide Sound, Grown, OpenedThrough, Above;
    match items
    case NoItems => NothingPassed(s, indent, base, through);
    case PlainItem(rest) =>
      assert ([Other] + RenderItems(rest, indent))[1..] == RenderItems(rest, indent);
      RenumberedIsSound(s, s.number + 1);
      ItemsPass(rest, indent, Step(s, Other), base, through);
      OtherPassed(s, Run(s, [Other] + RenderItems(rest, indent)), indent, base, through, DistinctItems(rest));
    case MappingItem(gap, key, value, more, rest) =>
      var lines := ItemLines(items, indent);
      ItemPass(items, indent, s, base, through);
      RunConcat(s, lines, RenderItems(rest, indent));
      ItemsPass(rest, indent, Run(s, lines), base, through);
      PassedInTurn(s, Run(s, lines), Run(s, lines + RenderItems(rest, indent)), indent, base, through,
                   DistinctValue(value) && Distinct(more, {key}), DistinctItems(rest));
    case NestedItem(gap, inner, rest) =>
      var lines := [Other] + Tail(RenderItems(inner, indent + 2 + gap));
      assert lines[1..] == Tail(RenderItems(inner, indent + 2 + gap));
      RenumberedIsSound(s, s.number + 1);
      FirstPass(inner, indent + 2 + gap, Step(s, Other), indent, base, through);
      OtherPassed(s, Run(s, lines), indent, base, through, DistinctItems(inner));
      RunConcat(s, lines, RenderItems(rest, indent));
      ItemsPass(rest, indent, Run(s, lines), base, through);
      PassedInTurn(s, Run(s, lines), Run(s, lines + RenderItems(rest, indent)), indent, base, through,
                   DistinctItems(inner), DistinctItems(rest));
  }

  /** Items passed in two parts. */
  lemma PassedInTurn(s: State, t: State, u: State, indent: nat, base: Stack, through: Option<string>, first: bool, rest: bool)
    requires PassedItems(s, t, indent, base, through, first) && PassedItems(t, u, indent, base, through, rest)
    ensures PassedItems(s, u, indent, base, through, first && rest)
  {
    GrownIsTransitive(s, t, u, ScopeOf(base));
  }

  /** A skipped line before. */
  lemma OtherPassed(s: State, t: State, indent: nat, base: Stack, through: Option<string>, distinct: bool)
    requires PassedItems(Step(s, Other), t, indent, base, through, distinct)
    ensures PassedItems(s, t, indent, base, through, distinct)
  {
  }

  lemma NothingPassed(s: State, indent: nat, base: Stack, through: Option<string>)
    requires Sound(s) && PopTo(s.stack, indent) == base && Above(s.stack, base, through)
    ensures PassedItems(s, s, indent, base, through, true)
  {
  }

  /** Items at a deeper indentation than the frames that stay: what is left on the stack in
      between changes the scopes they open, but not whether they are new. */
  lemma {:induction false} DeepPass(items: Items, deep: nat, s: State, indent: nat, base: Stack, through: Option<string>)
    requires FlatItems(items) && indent <= deep
    requires Sound(s) && PopTo(s.stack, indent) == base && Above(s.stack, base, through)
    ensures PassedItems(s, Run(s, RenderItems(items, deep)), indent, base, through, DistinctItems(items))
    decreases items, 3
  {
    var middle := PopTo(s.stack, deep);
    var t := Run(s, RenderItems(items, deep));
    PopAbove(s.stack, base, deep, indent, through);
    PopPop(s.stack, indent, deep);
    if middle == base {
      ItemsPass(items, deep, s, base, through);
      PopPop(t.stack, indent, deep);
    } else {
      var inner := SomeAbove(s.stack, deep);
      ItemsPass(items, deep, s, middle, inner);
      PopPop(t.stack, indent, deep);
      AboveIsTransitive(t.stack, middle, base, inner, through);
      LiftedPass(s, t, middle, base, inner, through);
    }
  }

  lemma LiftedPass(s: State, t: State, middle: Stack, base: Stack, inner: Option<string>, through: Option<string>)
    requires Grown(s, t, ScopeOf(middle)) && Above(middle, base, through) && middle != base
    ensures Grown(s, t, ScopeOf(base)) && OpenedThrough(s, t, ScopeOf(base), through)
  {
    forall x | x in t.seen && x !in s.seen
      ensures
        var child := ChildOf(ScopeOf(base), x.0);
        child.Some? && (child.value.Mapping? ==> through == Some(child.value.key))
    {
      AboveLeads(middle, base, through, x.0);
    }
  }

  /** The items whose first line is not seen. */
  lemma {:induction false} FirstPass(items: Items, deep: nat, s: State, indent: nat, base: Stack, through: Option<string>)
    requires FlatFirst(items) && indent <= deep
    requires Sound(s) && PopTo(s.stack, indent) == base && Above(s.stack, base, through)
    ensures PassedItems(s, Run(s, Tail(RenderItems(items, deep))), indent, base, through, DistinctItems(items))
    decreases items, 1
  {
    hide Sound, Grown, OpenedThrough, Above;
    match items
    case NoItems => NothingPassed(s, indent, base, through);
    case PlainItem(rest) =>
      assert Tail(RenderItems(items, deep)) == RenderItems(rest, deep);
      DeepPass(rest, deep, s, indent, base, through);
    case MappingItem(gap, _, value, _, rest) =>
      assert Tail(RenderItems(items, deep)) == RenderValue(value, deep + 2 + gap) + RenderItems(rest, deep);
      SplitPass(items, RenderValue(value, deep + 2 + gap), rest, deep, s, indent, base, through, DistinctValue(value));
    case NestedItem(gap, inner, rest) =>
      var lines := Tail(RenderItems(inner, deep + 2 + gap));
      assert Tail(RenderItems(items, deep)) == lines + RenderItems(rest, deep);
      SplitPass(items, lines, rest, deep, s, indent, base, through, DistinctItems(inner));
  }

  /** The rest of the first item, and the items after it. */
  lemma {:induction false} SplitPass(items: Items, lines: seq<Line>, rest: Items, deep: nat, s: State, indent: nat,
                                     base: Stack, through: Option<string>, distinct: bool)
    requires FlatFirst(items) && indent <= deep
    requires Sound(s) && PopTo(s.stack, indent) == base && Above(s.stack, base, through)
    requires
      || (&& items.MappingItem? && rest == items.rest && distinct == DistinctValue(items.value)
          && lines == RenderValue(items.value, deep + 2 + items.gap))
      || (&& items.NestedItem? && rest == items.rest && distinct == DistinctItems(items.items)
          && lines == Tail(RenderItems(items.items, deep + 2 + items.gap)))
    ensures PassedItems(s, Run(s, lines + RenderItems(rest, deep)), indent, base, through, distinct && DistinctItems(rest))
    decreases items, 0
  {
    hide Sound, Grown, OpenedThrough, Above;
    if items.NestedItem? {
      FirstPass(items.items, deep + 2 + items.gap, s, indent, base, through);
    } else if items.value.Sequence? {
      DeepPass(items.value.items, deep + 2 + items.gap + items.value.offset, s, indent, base, through);
    } else {
      NothingPassed(s, indent, base, through);
    }
    RunConcat(s, lines, RenderItems(rest, deep));
    DeepPass(rest, deep, Run(s, lines), indent, base, through);
    PassedInTurn(s, Run(s, lines), Run(s, lines + RenderItems(rest, deep)), indent, base, through,
                 distinct, DistinctItems(rest));
  }

  function ItemLines(items: Items, indent: nat): seq<Line>
    requires items.MappingItem?
  {
    var inner := indent + 2 + items.gap;
    [Entry(indent, 2 + items.gap, items.key, items.value.Scalar?)]
      + RenderValue(items.value, inner) + RenderEntries(items.more, inner)
  }

  lemma {:induction false} ItemPass(items: Items, indent: nat, s: State, base: Stack, through: Option<string>)
    requires items.MappingItem? && FlatItems(items)
    requires Sound(s) && PopTo(s.stack, indent) == base
    ensures PassedItems(s, Run(s, ItemLines(items, indent)), indent, base, through,
                        DistinctValue(items.value) && Distinct(items.more, {items.key}))
    decreases items, 1
  {
    hide RenderValue, RenderEntries, Distinct, DistinctValue, Above, Fresh, Sound;
    var inner := indent + 2 + items.gap;
    var start := s.(number := s.number + 1);
    RenumberedIsSound(s, start.number);
    RunParts(s, Entry(indent, 2 + items.gap, items.key, items.value.Scalar?), RenderValue(items.value, inner),
             RenderEntries(items.more, inner));
    EnterKeeps(start, indent, base);
    var e := EnterItem(start, indent);
    InsidePass(items, inner, e);
    var t := Run(s, ItemLines(items, indent));
    PopPop(t.stack, indent, inner);
    PopPop(s.stack, indent, indent);
    GrownBelow(e, t, ScopeOf(base), NextItem(start, indent, base));
    ItemAbove(t.stack, inner, base, through);
  }

  lemma RenumberedIsSound(s: State, number: nat)
    requires Sound(s)
    ensures Sound(s.(number := number))
  {
  }

  /** The mapping of an item that was just entered. */
  lemma {:induction false} InsidePass(items: Items, inner: nat, e: State)
    requires items.MappingItem? && FlatItems(items)
    requires Sound(e) && PopTo(e.stack, inner) == e.stack && Fresh(e, ScopeOf(e.stack), {})
    ensures
      var t1 := Record(e, inner, items.key, items.value.Scalar?);
      var t := Run(Run(t1, RenderValue(items.value, inner)), RenderEntries(items.more, inner));
      && PassedEntries(e, t, inner, e.stack)
      && (DistinctValue(items.value) && Distinct(items.more, {items.key}) <==> t.errors == e.errors)
    decreases items, 0
  {
    hide RenderValue, RenderEntries, Distinct, DistinctValue;
    var MappingItem(_, key, value, more, _) := items;
    RecordKeeps(e, inner, key, value.Scalar?);
    var t1 := Record(e, inner, key, value.Scalar?);
    ValuePass(value, inner, t1, e.stack, key);
    var t2 := Run(t1, RenderValue(value, inner));
    EntriesPass(more, inner, t2, e.stack, {key});
    var t3 := Run(t2, RenderEntries(more, inner));
    assert {} + {key} == {key};
    CombineEntry(e, t1, t2, t3, ScopeOf(e.stack), key, {}, DistinctValue(value), Distinct(more, {key}));
  }

  /** On the rendering of any flat tree, at any indentation, the pass reports nothing
      exactly when every mapping has pairwise distinct keys. */
  lemma ReportsExactlyTheDuplicates(es: Entries, indent: nat)
    requires Flat(es)
    ensures Run(START, RenderEntries(es, indent)).errors == [] <==> Distinct(es, {})
  {
    EntriesPass(es, indent, START, Bottom, {});
  }
}
