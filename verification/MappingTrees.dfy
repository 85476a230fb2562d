// Which trees the duplicate-key pass can be trusted with (validate_ci.py).
//
// Flat trees have faithful layouts, and faithful layouts have lone first keys: a mapping that
// begins behind two item prefixes has no second key. In between, where the single unseen key
// has a mapping as its value, the frames left on the stack decide. A false alarm and a missed
// duplicate show what happens elsewhere.

module MappingTrees {
  import opened Wrappers
  import opened MappingScopes
  import opened MappingFrames
  import opened MappingLayouts

  // ---- Flat trees ----

  lemma {:induction false} FlatRenamed(es: Entries, names: nat -> string, at: nat)
    requires Flat(es)
    ensures Flat(Rename(es, names, at))
  {
    match es
    case NoEntries =>
    case MoreEntries(_, value, rest) =>
      FlatValueRenamed(value, names, at + 1);
      FlatRenamed(rest, names, at + 1 + SizeValue(value));
  }

  lemma {:induction false} FlatValueRenamed(value: Value, names: nat -> string, at: nat)
    requires FlatValue(value)
    ensures FlatValue(RenameValue(value, names, at))
  {
    match value
    case Scalar =>
    case Null =>
    case Nested(_, entries) => FlatRenamed(entries, names, at);
    case Sequence(_, items) => FlatItemsRenamed(items, names, at);
  }

  lemma {:induction false} FlatItemsRenamed(items: Items, names: nat -> string, at: nat)
    requires FlatItems(items)
    ensures FlatItems(RenameItems(items, names, at))
    ensures FlatFirst(items) ==> FlatFirst(RenameItems(items, names, at))
  {
    match items
    case NoItems =>
    case PlainItem(rest) => FlatItemsRenamed(rest, names, at + 1);
    case MappingItem(_, _, value, more, rest) =>
      FlatValueRenamed(value, names, at + 1);
      FlatRenamed(more, names, at + 1 + SizeValue(value));
      FlatItemsRenamed(rest, names, at + 1 + SizeValue(value) + Size(more));
    case NestedItem(_, inner, rest) =>
      FirstIsFlat(inner);
      FlatItemsRenamed(inner, names, at);
      FlatItemsRenamed(rest, names, at + Most(1, SizeItems(inner)));
  }

  lemma {:induction false} FirstIsFlat(items: Items)
    requires FlatFirst(items)
    ensures FlatItems(items)
  {
  }

  /** The layout of every flat tree is faithful. */
  lemma FlatIsFaithful(es: Entries, indent: nat)
    requires Flat(es)
    ensures Faithful(es, indent)
  {
    forall names: nat -> string ensures Right(Rename(es, names, 0), indent) {
      FlatRenamed(es, names, 0);
      ReportsExactlyTheDuplicates(Rename(es, names, 0), indent);
    }
    RightUnderEveryNaming(es, indent);
  }

  // ---- Lone first keys ----

  /** A mapping that begins behind two item prefixes has no second key. */
  predicate Lone(es: Entries)
  {
    match es
    case NoEntries => true
    case MoreEntries(_, value, rest) => LoneValue(value) && Lone(rest)
  }

  predicate LoneValue(value: Value)
  {
    match value
    case Scalar => true
    case Null => true
    case Nested(_, entries) => Lone(entries)
    case Sequence(_, items) => LoneItems(items)
  }

  predicate LoneItems(items: Items)
  {
    match items
    case NoItems => true
    case PlainItem(rest) => LoneItems(rest)
    case MappingItem(_, _, value, more, rest) => LoneValue(value) && Lone(more) && LoneItems(rest)
    case NestedItem(_, inner, rest) => LoneFirst(inner) && LoneItems(rest)
  }

  predicate LoneFirst(items: Items)
  {
    match items
    case NoItems => true
    case PlainItem(rest) => LoneItems(rest)
    case MappingItem(_, _, value, more, rest) => more.NoEntries? && LoneValue(value) && LoneItems(rest)
    case NestedItem(_, inner, rest) => LoneFirst(inner) && LoneItems(rest)
  }

  /** A key that is not seen has another key after it in its mapping. */
  predicate Hides(lines: seq<Line>, slots: Sheet)
  {
    && |lines| == |slots|
    && exists i, j :: 0 <= i < j < |slots| && Same(slots, i, j) && lines[i] == Other
  }

  lemma HidesBefore(a: seq<Line>, x: Sheet, b: seq<Line>, y: Sheet)
    requires Hides(a, x) && |b| == |y|
    ensures Hides(a + b, x + y)
  {
    var i, j :| 0 <= i < j < |x| && Same(x, i, j) && a[i] == Other;
    assert Same(x + y, i, j) && (a + b)[i] == Other;
  }

  lemma HidesAfter(a: seq<Line>, x: Sheet, b: seq<Line>, y: Sheet)
    requires |a| == |x| && Hides(b, y)
    ensures Hides(a + b, x + y)
  {
    var i, j :| 0 <= i < j < |y| && Same(y, i, j) && b[i] == Other;
    assert (x + y)[|x| + i] == y[i] && (x + y)[|x| + j] == y[j] && (a + b)[|a| + i] == b[i];
    assert Same(x + y, |x| + i, |x| + j);
  }

  lemma {:induction false} EntriesHide(es: Entries, indent: nat, node: nat, at: nat)
    requires !Lone(es)
    ensures Hides(RenderEntries(es, indent), Slots(es, node, at))
    decreases es, 0
  {
    hide Hides;
    var MoreEntries(key, value, rest) := es;
    var line, slot := [Entry(indent, 0, key, value.Scalar?)], [Some(Slot(node, key))];
    var lines, slots := RenderValue(value, indent), SlotsOfValue(value, at + 1);
    var next := at + 1 + SizeValue(value);
    ValueShows(value, indent, at + 1);
    EntriesShow(rest, indent, node, next);
    if !LoneValue(value) {
      ValueHides(value, indent, at + 1);
      HidesAfter(line, slot, lines, slots);
      HidesBefore(line + lines, slot + slots, RenderEntries(rest, indent), Slots(rest, node, next));
    } else {
      EntriesHide(rest, indent, node, next);
      HidesAfter(line + lines, slot + slots, RenderEntries(rest, indent), Slots(rest, node, next));
    }
  }

  lemma {:induction false} ValueHides(value: Value, indent: nat, at: nat)
    requires !LoneValue(value)
    ensures Hides(RenderValue(value, indent), SlotsOfValue(value, at))
    decreases value, 0
  {
    match value
    case Nested(step, entries) => EntriesHide(entries, indent + 1 + step, at, at);
    case Sequence(offset, items) => ItemsHide(items, indent + offset, at);
  }

  lemma {:induction false} ItemsHide(items: Items, indent: nat, at: nat)
    requires !LoneItems(items)
    ensures Hides(RenderItems(items, indent), SlotsOfItems(items, at))
    decreases items, 3
  {
    hide Hides;
    match items
    case PlainItem(rest) =>
      ItemsHide(rest, indent, at + 1);
      HidesAfter([Other], [None], RenderItems(rest, indent), SlotsOfItems(rest, at + 1));
    case MappingItem(_, _, _, _, _) => MappingItemHides(items, indent, at);
    case NestedItem(_, _, _) => NestedItemHides(items, indent, at);
  }

  lemma {:induction false} MappingItemHides(items: Items, indent: nat, at: nat)
    requires items.MappingItem? && !LoneItems(items)
    ensures Hides(RenderItems(items, indent), SlotsOfItems(items, at))
    decreases items, 2
  {
    hide Hides, RenderEntries, RenderValue, Slots, SlotsOfValue, Lone, LoneValue;
    var MappingItem(gap, key, value, more, rest) := items;
    var next := at + 1 + SizeValue(value) + Size(more);
    MappingShows(items, indent, at);
    ItemsShow(rest, indent, next);
    if !LoneItems(rest) {
      ItemsHide(rest, indent, next);
      HidesAfter(ItemLines(items, indent), MappingSlots(items, at), RenderItems(rest, indent), SlotsOfItems(rest, next));
    } else {
      InnerHides(items, indent, at);
      HidesBefore(ItemLines(items, indent), MappingSlots(items, at), RenderItems(rest, indent), SlotsOfItems(rest, next));
    }
  }

  lemma {:induction false} InnerHides(items: Items, indent: nat, at: nat)
    requires items.MappingItem? && !(LoneValue(items.value) && Lone(items.more))
    ensures Hides(ItemLines(items, indent), MappingSlots(items, at))
    decreases items, 1
  {
    hide Hides;
    var MappingItem(gap, key, value, more, _) := items;
    var deeper, next := indent + 2 + gap, at + 1 + SizeValue(value);
    var line, slot := [Entry(indent, 2 + gap, key, value.Scalar?)], [Some(Slot(at, key))];
    ValueShows(value, deeper, at + 1);
    EntriesShow(more, deeper, at, next);
    if !LoneValue(value) {
      ValueHides(value, deeper, at + 1);
      HidesAfter(line, slot, RenderValue(value, deeper), SlotsOfValue(value, at + 1));
      HidesBefore(line + RenderValue(value, deeper), slot + SlotsOfValue(value, at + 1),
                  RenderEntries(more, deeper), Slots(more, at, next));
    } else {
      EntriesHide(more, deeper, at, next);
      HidesAfter(line + RenderValue(value, deeper), slot + SlotsOfValue(value, at + 1),
                 RenderEntries(more, deeper), Slots(more, at, next));
    }
  }

  lemma {:induction false} NestedItemHides(items: Items, indent: nat, at: nat)
    requires items.NestedItem? && !LoneItems(items)
    ensures Hides(RenderItems(items, indent), SlotsOfItems(items, at))
    decreases items, 2
  {
    hide Hides, Tail, OnOneLine;
    var NestedItem(gap, inner, rest) := items;
    var deeper, next := indent + 2 + gap, at + Most(1, SizeItems(inner));
    var lines, slots := [Other] + Tail(RenderItems(inner, deeper)), OnOneLine(SlotsOfItems(inner, at));
    ItemsShow(inner, deeper, at);
    HiddenShows(RenderItems(inner, deeper), SlotsOfItems(inner, at));
    ItemsShow(rest, indent, next);
    if !LoneFirst(inner) {
      FirstHides(inner, deeper, at);
      HidesBefore(lines, slots, RenderItems(rest, indent), SlotsOfItems(rest, next));
    } else {
      ItemsHide(rest, indent, next);
      HidesAfter(lines, slots, RenderItems(rest, indent), SlotsOfItems(rest, next));
    }
  }

  /** The items that begin on the line of an outer item. */
  lemma {:induction false} FirstHides(items: Items, indent: nat, at: nat)
    requires !LoneFirst(items)
    ensures Hides([Other] + Tail(RenderItems(items, indent)), OnOneLine(SlotsOfItems(items, at)))
    decreases items, 4
  {
    match items
    case PlainItem(rest) =>
      ItemsHide(items, indent, at);
      assert [Other] + Tail(RenderItems(items, indent)) == RenderItems(items, indent);
    case MappingItem(_, _, _, _, _) => FirstMappingHides(items, indent, at);
    case NestedItem(_, _, _) =>
      ItemsHide(items, indent, at);
      assert [Other] + Tail(RenderItems(items, indent)) == RenderItems(items, indent);
  }

  lemma {:induction false} FirstMappingHides(items: Items, indent: nat, at: nat)
    requires items.MappingItem? && !LoneFirst(items)
    ensures Hides([Other] + Tail(RenderItems(items, indent)), OnOneLine(SlotsOfItems(items, at)))
    decreases items, 4, 0
  {
    var lines, slots := RenderItems(items, indent), SlotsOfItems(items, at);
    var hidden := [Other] + lines[1..];
    ItemsShow(items, indent, at);
    if items.more.NoEntries? {
      ItemsHide(items, indent, at);
      var i, j :| 0 <= i < j < |slots| && Same(slots, i, j) && lines[i] == Other;
      assert hidden[i] == Other;
    } else {
      var j := 1 + SizeValue(items.value);
      SecondKey(items, at);
      assert Same(slots, 0, j) && hidden[0] == Other;
    }
  }

  /** Where the second key of a mapping stands. */
  lemma SecondKey(items: Items, at: nat)
    requires items.MappingItem? && items.more.MoreEntries?
    ensures
      var slots, j := SlotsOfItems(items, at), 1 + SizeValue(items.value);
      && j < |slots| && slots[0] == Some(Slot(at, items.key)) && slots[j] == Some(Slot(at, items.more.key))
  {
    var before := [Some(Slot(at, items.key))] + SlotsOfValue(items.value, at + 1);
    var after := Slots(items.more, at, at + 1 + SizeValue(items.value));
    assert after[0] == Some(Slot(at, items.more.key));
    assert (before + after)[|before|] == after[0];
  }

  /** In a faithful layout a mapping that begins behind two item prefixes has one key. */
  lemma FaithfulIsLone(es: Entries, indent: nat)
    ensures Faithful(es, indent) ==> Lone(es)
  {
    var lines, slots, places := RenderEntries(es, indent), Slots(es, 0, 0), PlacesOf(es, indent);
    if !Lone(es) {
      EntriesHide(es, indent, 0, 0);
      var i, j :| 0 <= i < j < |slots| && Same(slots, i, j) && lines[i] == Other;
      assert places[i].None?;
      assert Same(slots, i, j) && !Same(places, i, j);
    }
  }

  // ---- Where the report is wrong ----

  /** One mapping of `a` and another key, as the only item of a sequence. */
  function Pair(key: string): Items
  {
    MappingItem(0, "a", Scalar, MoreEntries(key, Scalar, NoEntries), NoItems)
  }

  function Below(items: Items): Entries
  {
    MoreEntries("x", Sequence(2, items), NoEntries)
  }

  /** Two items, each a sequence of one mapping of `a` and `b`. */
  const TWICE: Entries := Below(NestedItem(0, Pair("b"), NestedItem(0, Pair("b"), NoItems)))

  /** One item, a sequence of one mapping that repeats `a`. */
  const REPEATED: Entries := Below(NestedItem(0, Pair("a"), NoItems))

  lemma OneKeyRenders(key: string, indent: nat)
    ensures RenderEntries(MoreEntries(key, Scalar, NoEntries), indent) == [Entry(indent, 0, key, true)]
  {
    assert RenderValue(Scalar, indent) == RenderEntries(NoEntries, indent) == [];
  }

  lemma OneItemRenders(key: string, value: Value, more: Entries)
    ensures RenderItems(MappingItem(0, key, value, more, NoItems), 4)
         == [Entry(4, 2, key, value.Scalar?)] + RenderValue(value, 6) + RenderEntries(more, 6)
  {
    hide RenderValue, RenderEntries;
    assert RenderItems(NoItems, 4) == [];
  }

  lemma NestedRenders(items: Items, rest: Items, first: Line, others: seq<Line>)
    requires RenderItems(items, 4) == [first] + others
    ensures RenderItems(NestedItem(0, items, rest), 2) == [Other] + others + RenderItems(rest, 2)
  {
    assert Tail([first] + others) == others;
  }

  lemma PairRenders(key: string, rest: Items)
    ensures RenderItems(NestedItem(0, Pair(key), rest), 2) == [Other, Entry(6, 0, key, true)] + RenderItems(rest, 2)
  {
    OneKeyRenders(key, 6);
    OneItemRenders("a", Scalar, MoreEntries(key, Scalar, NoEntries));
    assert RenderValue(Scalar, 6) == [];
    NestedRenders(Pair(key), rest, Entry(4, 2, "a", true), [Entry(6, 0, key, true)]);
  }

  lemma BelowRenders(items: Items)
    ensures RenderEntries(Below(items), 0) == [Entry(0, 0, "x", false)] + RenderItems(items, 2)
  {
  }

  lemma RunFirst(s: State, line: Line, rest: seq<Line>)
    ensures Run(s, [line] + rest) == Run(Step(s, line), rest)
  {
    assert ([line] + rest)[1..] == rest;
  }

  function SeenBelowX(): State
  {
    Step(Step(START, Entry(0, 0, "x", false)), Other)
  }

  lemma SeenBelowXIs()
    ensures SeenBelowX() == State(2, Push(Bottom, 0, Mapping("x")), map[], {(Root, "x")}, [])
  {
  }

  /** Two items, each a sequence of one mapping of `a` to a mapping of `b`. */
  const DEEPER: Entries := Below(NestedItem(0, Deep(), NestedItem(0, Deep(), NoItems)))

  function Deep(): Items
  {
    MappingItem(0, "a", Nested(0, MoreEntries("b", Scalar, NoEntries)), NoEntries, NoItems)
  }

  lemma DeepRenders(rest: Items)
    ensures RenderItems(NestedItem(0, Deep(), rest), 2) == [Other, Entry(7, 0, "b", true)] + RenderItems(rest, 2)
  {
    var inner := MoreEntries("b", Scalar, NoEntries);
    OneKeyRenders("b", 7);
    OneItemRenders("a", Nested(0, inner), NoEntries);
    assert RenderValue(Nested(0, inner), 6) == RenderEntries(inner, 7) && RenderEntries(NoEntries, 6) == [];
    NestedRenders(Deep(), rest, Entry(4, 2, "a", false), [Entry(7, 0, "b", true)]);
  }

  /** Lone first keys are not enough: a mapping below an unseen key is taken for part of
      another one. */
  lemma LoneIsNotEnough()
    ensures Lone(DEEPER) && Distinct(DEEPER, {})
    ensures Run(START, RenderEntries(DEEPER, 0)).errors != []
  {
    hide RenderItems, RenderEntries, Run;
    var once := NestedItem(0, Deep(), NoItems);
    BelowRenders(NestedItem(0, Deep(), once));
    DeepRenders(once);
    DeepRenders(NoItems);
    assert RenderItems(NoItems, 2) == [] by { NothingRenders(); }
    assert RenderEntries(DEEPER, 0) == TwoBelowX(7);
    TwiceIsReported(7);
  }

  /** The second keys of the two mappings are taken for keys of one: a false alarm. */
  lemma FalseAlarm()
    ensures RenderEntries(TWICE, 0) == TwoBelowX(6)
    ensures Distinct(TWICE, {})
    ensures Run(START, RenderEntries(TWICE, 0)).errors != []
  {
    hide *;
    TwiceIsDistinct();
    TwiceRenders();
    TwiceIsReported(6);
  }

  lemma TwiceIsDistinct()
    ensures Distinct(TWICE, {})
  {
    assert Distinct(MoreEntries("b", Scalar, NoEntries), {"a"});
  }

  lemma TwiceRenders()
    ensures RenderEntries(TWICE, 0) == TwoBelowX(6)
  {
    hide RenderItems, RenderEntries;
    var once := NestedItem(0, Pair("b"), NoItems);
    BelowRenders(NestedItem(0, Pair("b"), once));
    PairRenders("b", once);
    PairRenders("b", NoItems);
    assert RenderItems(NoItems, 2) == [] by { NothingRenders(); }
  }

  lemma NothingRenders()
    ensures RenderItems(NoItems, 2) == []
  {
  }

  function TwoBelowX(indent: nat): seq<Line>
  {
    [Entry(0, 0, "x", false), Other, Entry(indent, 0, "b", true), Other, Entry(indent, 0, "b", true)]
  }

  lemma TwiceIsReported(indent: nat)
    requires indent > 0
    ensures Run(START, TwoBelowX(indent)).errors != []
  {
    hide Step, Run;
    var x, b := Entry(0, 0, "x", false), Entry(indent, 0, "b", true);
    RunFirst(START, x, [Other, b, Other, b]);
    RunFirst(Step(START, x), Other, [b, Other, b]);
    assert [x] + [Other, b, Other, b] == TwoBelowX(indent);
    assert [Other] + [b, Other, b] == [Other, b, Other, b];
    SeenBelowXIs();
    AgainIsReported(SeenBelowX(), b);
  }

  lemma AgainIsReported(s: State, b: Line)
    requires b.Entry? && b.sequence == 0 && b.hasValue && PopTo(s.stack, b.indent) == s.stack
    ensures Run(s, [b, Other, b]).errors != []
  {
    hide Run;
    RunFirst(s, b, [Other, b]);
    RunFirst(Step(s, b), Other, [b]);
    RunFirst(Step(Step(s, b), Other), b, []);
    assert [b] + [Other, b] == [b, Other, b] && [Other] + [b] == [Other, b] && [b] + [] == [b];
    RunKeepsErrors(Step(Step(Step(s, b), Other), b), []);
  }

  /** The first key of the mapping is not seen: its repetition is missed. */
  lemma MissedDuplicate()
    ensures RenderEntries(REPEATED, 0) == [Entry(0, 0, "x", false), Other, Entry(6, 0, "a", true)]
    ensures !Distinct(REPEATED, {})
    ensures Run(START, RenderEntries(REPEATED, 0)).errors == []
  {
    assert !Distinct(MoreEntries("a", Scalar, NoEntries), {"a"});
    BelowRenders(NestedItem(0, Pair("a"), NoItems));
    PairRenders("a", NoItems);
    OnceIsNotReported();
  }

  lemma OnceIsNotReported()
    ensures Run(START, [Entry(0, 0, "x", false), Other, Entry(6, 0, "a", true)]).errors == []
  {
    hide Step;
    var x, a := Entry(0, 0, "x", false), Entry(6, 0, "a", true);
    RunFirst(START, x, [Other, a]);
    RunFirst(Step(START, x), Other, [a]);
    RunFirst(SeenBelowX(), a, []);
    assert [x] + [Other, a] == [x, Other, a] && [Other] + [a] == [Other, a] && [a] + [] == [a];
    NewKeyBelowX();
  }

  lemma NewKeyBelowX()
    ensures Step(SeenBelowX(), Entry(6, 0, "a", true)).errors == []
  {
    SeenBelowXIs();
  }
}
