// When the report of the duplicate-key pass can be trusted (validate_ci.py).
//
// A layout is a tree without regard to its keys. It is faithful when two keys belong to one
// mapping exactly when the pass sees both, in one frame. The theorem: report and tree agree
// under every naming of the keys exactly when the layout is faithful. MappingTrees says which
// trees have faithful layouts.

module MappingLayouts {
  import opened Wrappers
  import opened MappingScopes
  import opened MappingFrames

  // ---- Keys and their mappings ----

  /** Lines rendered. */
  function Size(es: Entries): nat
  {
    match es
    case NoEntries => 0
    case MoreEntries(_, value, rest) => 1 + SizeValue(value) + Size(rest)
  }

  function SizeValue(value: Value): nat
  {
    match value
    case Scalar => 0
    case Null => 0
    case Nested(_, entries) => Size(entries)
    case Sequence(_, items) => SizeItems(items)
  }

  function SizeItems(items: Items): nat
  {
    match items
    case NoItems => 0
    case PlainItem(rest) => 1 + SizeItems(rest)
    case MappingItem(_, _, value, more, rest) => 1 + SizeValue(value) + Size(more) + SizeItems(rest)
    case NestedItem(_, inner, rest) => Most(1, SizeItems(inner)) + SizeItems(rest)
  }

  function Most(a: nat, b: nat): nat
  {
    if a < b then b else a
  }

  /** The key on each line and the mapping it belongs to, known by its first line, whether or
      not the pass can see the line. `at` is the number of the first line here. */
  function Slots(es: Entries, node: nat, at: nat): (slots: Sheet)
    ensures |slots| == Size(es)
  {
    match es
    case NoEntries => []
    case MoreEntries(key, value, rest) =>
      [Some(Slot(node, key))] + SlotsOfValue(value, at + 1) + Slots(rest, node, at + 1 + SizeValue(value))
  }

  function SlotsOfValue(value: Value, at: nat): (slots: Sheet)
    ensures |slots| == SizeValue(value)
  {
    match value
    case Scalar => []
    case Null => []
    case Nested(_, entries) => Slots(entries, at, at)
    case Sequence(_, items) => SlotsOfItems(items, at)
  }

  function SlotsOfItems(items: Items, at: nat): (slots: Sheet)
    ensures |slots| == SizeItems(items)
  {
    match items
    case NoItems => []
    case PlainItem(rest) => [None] + SlotsOfItems(rest, at + 1)
    case MappingItem(_, key, value, more, rest) =>
      [Some(Slot(at, key))] + SlotsOfValue(value, at + 1) + Slots(more, at, at + 1 + SizeValue(value))
        + SlotsOfItems(rest, at + 1 + SizeValue(value) + Size(more))
    case NestedItem(_, inner, rest) =>
      OnOneLine(SlotsOfItems(inner, at)) + SlotsOfItems(rest, at + Most(1, SizeItems(inner)))
  }

  /** An item without lines of its own still has the line of its prefix. */
  function OnOneLine(slots: Sheet): Sheet
  {
    if slots == [] then [None] else slots
  }

  // ---- Distinct keys, line by line ----

  predicate Apart(a: Sheet, b: Sheet)
  {
    forall i, j :: 0 <= i < |a| && 0 <= j < |b| && a[i].Some? && b[j].Some? ==> a[i] != b[j]
  }

  /** Every key here belongs to `node` or to a mapping that begins on these lines. */
  predicate Within(slots: Sheet, node: nat, from: nat, to: nat)
  {
    forall i :: 0 <= i < |slots| && slots[i].Some? ==> slots[i].value.node == node || from <= slots[i].value.node < to
  }

  /** Every key here belongs to a mapping that begins on these lines. */
  predicate Ranged(slots: Sheet, from: nat, to: nat)
  {
    forall i :: 0 <= i < |slots| && slots[i].Some? ==> from <= slots[i].value.node < to
  }

  /** No key of `node` is taken. */
  predicate Untaken(slots: Sheet, node: nat, taken: set<string>)
  {
    forall i :: 0 <= i < |slots| && slots[i].Some? && slots[i].value.node == node ==> slots[i].value.key !in taken
  }

  lemma UniqueConcat(a: Sheet, b: Sheet)
    ensures Unique(a + b) <==> Unique(a) && Unique(b) && Apart(a, b)
  {
    var all := a + b;
    if Unique(all) {
      forall i, j | 0 <= i < j < |a| && a[i].Some? && a[j].Some? ensures a[i] != a[j] {
        assert all[i] == a[i] && all[j] == a[j];
      }
      forall i, j | 0 <= i < j < |b| && b[i].Some? && b[j].Some? ensures b[i] != b[j] {
        assert all[|a| + i] == b[i] && all[|a| + j] == b[j];
      }
      forall i, j | 0 <= i < |a| && 0 <= j < |b| && a[i].Some? && b[j].Some? ensures a[i] != b[j] {
        assert all[i] == a[i] && all[|a| + j] == b[j];
      }
    }
    if Unique(a) && Unique(b) && Apart(a, b) {
      forall i, j | 0 <= i < j < |all| && all[i].Some? && all[j].Some? ensures all[i] != all[j] {
        assert all[i] == if i < |a| then a[i] else b[i - |a|];
        assert all[j] == if j < |a| then a[j] else b[j - |a|];
      }
    }
  }

  /** A key, the keys below it, and the keys after it in the same mapping. */
  lemma CombineSlots(node: nat, at: nat, key: string, value: Sheet, rest: Sheet, taken: set<string>)
    requires node <= at
    requires Ranged(value, at + 1, at + 1 + |value|)
    requires Within(rest, node, at + 1 + |value|, at + 1 + |value| + |rest|)
    ensures
      var all := [Some(Slot(node, key))] + value + rest;
      && Within(all, node, at + 1, at + |all|)
      && (Unique(all) && Untaken(all, node, taken) <==>
            key !in taken && Unique(value) && Unique(rest) && Untaken(rest, node, taken + {key}))
  {
    var head := [Some(Slot(node, key))];
    UniqueConcat(head, value);
    UniqueConcat(head + value, rest);
    assert Unique(head) && Apart(head, value);
    if Untaken(rest, node, taken + {key}) {
      assert Apart(head + value, rest);
      UntakenConcat(head + value, rest, node, taken);
    } else if Apart(head + value, rest) {
      assert (head + value)[0] == Some(Slot(node, key));
      UntakenConcat(head + value, rest, node, taken);
    }
  }

  lemma UntakenConcat(a: Sheet, b: Sheet, node: nat, taken: set<string>)
    ensures Untaken(a + b, node, taken) <==> Untaken(a, node, taken) && Untaken(b, node, taken)
  {
    var all := a + b;
    if Untaken(all, node, taken) {
      forall i | 0 <= i < |a| && a[i].Some? && a[i].value.node == node ensures a[i].value.key !in taken {
        assert all[i] == a[i];
      }
      forall i | 0 <= i < |b| && b[i].Some? && b[i].value.node == node ensures b[i].value.key !in taken {
        assert all[|a| + i] == b[i];
      }
    }
  }

  lemma RangedConcat(a: Sheet, b: Sheet, from: nat, middle: nat, to: nat)
    requires Ranged(a, from, middle) && Ranged(b, middle, to) && from <= middle <= to
    ensures Ranged(a + b, from, to)
    ensures Unique(a + b) <==> Unique(a) && Unique(b)
  {
    UniqueConcat(a, b);
  }

  /** The keys of every mapping are distinct exactly when no key occurs twice in a mapping. */
  lemma {:induction false} EntriesUnique(es: Entries, node: nat, at: nat, taken: set<string>)
    requires node <= at
    ensures
      var slots := Slots(es, node, at);
      && Within(slots, node, at + 1, at + |slots|)
      && (Distinct(es, taken) <==> Unique(slots) && Untaken(slots, node, taken))
  {
    match es
    case NoEntries =>
    case MoreEntries(key, value, rest) =>
      ValueUnique(value, at + 1);
      EntriesUnique(rest, node, at + 1 + SizeValue(value), taken + {key});
      CombineSlots(node, at, key, SlotsOfValue(value, at + 1), Slots(rest, node, at + 1 + SizeValue(value)), taken);
  }

  lemma {:induction false} ValueUnique(value: Value, at: nat)
    ensures
      var slots := SlotsOfValue(value, at);
      Ranged(slots, at, at + |slots|) && (DistinctValue(value) <==> Unique(slots))
  {
    match value
    case Scalar =>
    case Null =>
    case Nested(_, entries) => EntriesUnique(entries, at, at, {});
    case Sequence(_, items) => ItemsUnique(items, at);
  }

  predicate UniqueItems(items: Items, at: nat)
  {
    var slots := SlotsOfItems(items, at);
    Ranged(slots, at, at + |slots|) && (DistinctItems(items) <==> Unique(slots))
  }

  lemma {:induction false} ItemsUnique(items: Items, at: nat)
    ensures UniqueItems(items, at)
    decreases items, 2
  {
    match items
    case NoItems =>
    case PlainItem(_) => PlainUnique(items, at);
    case MappingItem(_, _, _, _, _) => MappingItemUnique(items, at);
    case NestedItem(_, _, _) => NestedUnique(items, at);
  }

  lemma {:induction false} PlainUnique(items: Items, at: nat)
    requires items.PlainItem?
    ensures UniqueItems(items, at)
    decreases items, 1
  {
    ItemsUnique(items.rest, at + 1);
    RangedConcat([None], SlotsOfItems(items.rest, at + 1), at, at + 1, at + SizeItems(items));
  }

  lemma {:induction false} MappingItemUnique(items: Items, at: nat)
    requires items.MappingItem?
    ensures UniqueItems(items, at)
    decreases items, 1
  {
    hide Ranged, Unique, Distinct, DistinctValue, Slots, SlotsOfValue;
    var middle := at + 1 + SizeValue(items.value) + Size(items.more);
    MappingUnique(items, at);
    ItemsUnique(items.rest, middle);
    RangedConcat(MappingSlots(items, at), SlotsOfItems(items.rest, middle), at, middle, at + SizeItems(items));
  }

  lemma {:induction false} NestedUnique(items: Items, at: nat)
    requires items.NestedItem?
    ensures UniqueItems(items, at)
    decreases items, 1
  {
    hide Ranged, Unique, OnOneLine;
    var inner, rest := items.items, items.rest;
    var middle := at + Most(1, SizeItems(inner));
    ItemsUnique(inner, at);
    ItemsUnique(rest, middle);
    OnOneLineKeeps(SlotsOfItems(inner, at), at);
    RangedConcat(OnOneLine(SlotsOfItems(inner, at)), SlotsOfItems(rest, middle), at, middle, at + SizeItems(items));
  }

  /** The slots of the first item. */
  function MappingSlots(items: Items, at: nat): (slots: Sheet)
    requires items.MappingItem?
    ensures |slots| == 1 + SizeValue(items.value) + Size(items.more)
  {
    [Some(Slot(at, items.key))] + SlotsOfValue(items.value, at + 1)
      + Slots(items.more, at, at + 1 + SizeValue(items.value))
  }

  lemma {:induction false} MappingUnique(items: Items, at: nat)
    requires items.MappingItem?
    ensures
      var slots := MappingSlots(items, at);
      && Ranged(slots, at, at + |slots|)
      && (DistinctValue(items.value) && Distinct(items.more, {items.key}) <==> Unique(slots))
    decreases items, 0
  {
    var MappingItem(_, key, value, more, _) := items;
    ValueUnique(value, at + 1);
    EntriesUnique(more, at, at + 1 + SizeValue(value), {key});
    assert {} + {key} == {key};
    CombineSlots(at, at, key, SlotsOfValue(value, at + 1), Slots(more, at, at + 1 + SizeValue(value)), {});
  }

  lemma OnOneLineKeeps(slots: Sheet, at: nat)
    requires Ranged(slots, at, at + |slots|)
    ensures Ranged(OnOneLine(slots), at, at + Most(1, |slots|)) && (Unique(OnOneLine(slots)) <==> Unique(slots))
  {
  }

  // ---- Lines and slots ----

  /** A line seen as an entry shows the key of its slot. */
  predicate Shows(lines: seq<Line>, slots: Sheet)
  {
    && |lines| == |slots|
    && forall i :: 0 <= i < |lines| && lines[i].Entry? ==> slots[i].Some? && slots[i].value.key == lines[i].key
  }

  lemma {:induction false} EntriesShow(es: Entries, indent: nat, node: nat, at: nat)
    ensures Shows(RenderEntries(es, indent), Slots(es, node, at))
  {
    match es
    case NoEntries =>
    case MoreEntries(key, value, rest) =>
      ValueShows(value, indent, at + 1);
      EntriesShow(rest, indent, node, at + 1 + SizeValue(value));
  }

  lemma {:induction false} ValueShows(value: Value, indent: nat, at: nat)
    ensures Shows(RenderValue(value, indent), SlotsOfValue(value, at))
  {
    match value
    case Scalar =>
    case Null =>
    case Nested(step, entries) => EntriesShow(entries, indent + 1 + step, at, at);
    case Sequence(offset, items) => ItemsShow(items, indent + offset, at);
  }

  lemma {:induction false} ItemsShow(items: Items, indent: nat, at: nat)
    ensures Shows(RenderItems(items, indent), SlotsOfItems(items, at))
    decreases items, 1
  {
    hide Shows, RenderEntries, RenderValue, Slots, SlotsOfValue;
    match items
    case NoItems => NothingShows();
    case PlainItem(rest) =>
      OneShows(Other, None);
      ItemsShow(rest, indent, at + 1);
      ShowsConcat([Other], [None], RenderItems(rest, indent), SlotsOfItems(rest, at + 1));
    case MappingItem(gap, key, value, more, rest) =>
      MappingShows(items, indent, at);
      ItemsShow(rest, indent, at + 1 + SizeValue(value) + Size(more));
      ShowsConcat(ItemLines(items, indent), MappingSlots(items, at),
                  RenderItems(rest, indent), SlotsOfItems(rest, at + 1 + SizeValue(value) + Size(more)));
    case NestedItem(_, _, _) => NestedShows(items, indent, at);
  }

  lemma {:induction false} NestedShows(items: Items, indent: nat, at: nat)
    requires items.NestedItem?
    ensures Shows(RenderItems(items, indent), SlotsOfItems(items, at))
    decreases items, 0
  {
    hide Shows, Tail, OnOneLine;
    var NestedItem(gap, inner, rest) := items;
    var deeper, next := indent + 2 + gap, at + Most(1, SizeItems(inner));
    ItemsShow(inner, deeper, at);
    ItemsShow(rest, indent, next);
    HiddenShows(RenderItems(inner, deeper), SlotsOfItems(inner, at));
    ShowsConcat([Other] + Tail(RenderItems(inner, deeper)), OnOneLine(SlotsOfItems(inner, at)),
                RenderItems(rest, indent), SlotsOfItems(rest, next));
  }

  lemma {:induction false} MappingShows(items: Items, indent: nat, at: nat)
    requires items.MappingItem?
    ensures Shows(ItemLines(items, indent), MappingSlots(items, at))
    decreases items, 0
  {
    hide Shows;
    var MappingItem(gap, key, value, more, _) := items;
    var line, slot := Entry(indent, 2 + gap, key, value.Scalar?), Some(Slot(at, key));
    OneShows(line, slot);
    ValueShows(value, indent + 2 + gap, at + 1);
    ShowsConcat([line], [slot], RenderValue(value, indent + 2 + gap), SlotsOfValue(value, at + 1));
    EntriesShow(more, indent + 2 + gap, at, at + 1 + SizeValue(value));
    ShowsConcat([line] + RenderValue(value, indent + 2 + gap), [slot] + SlotsOfValue(value, at + 1),
            RenderEntries(more, indent + 2 + gap), Slots(more, at, at + 1 + SizeValue(value)));
  }

  lemma NothingShows()
    ensures Shows([], [])
  {
  }

  lemma OneShows(line: Line, slot: Option<Slot>)
    requires line.Entry? ==> slot.Some? && slot.value.key == line.key
    ensures Shows([line], [slot])
  {
  }

  lemma HiddenShows(lines: seq<Line>, slots: Sheet)
    requires Shows(lines, slots)
    ensures Shows([Other] + Tail(lines), OnOneLine(slots))
  {
  }

  lemma ShowsConcat(a: seq<Line>, x: Sheet, b: seq<Line>, y: Sheet)
    requires Shows(a, x) && Shows(b, y)
    ensures Shows(a + b, x + y)
  {
  }

  // ---- Faithful layouts ----

  predicate Same(slots: Sheet, i: nat, j: nat)
    requires i < |slots| && j < |slots|
  {
    slots[i].Some? && slots[j].Some? && slots[i].value.node == slots[j].value.node
  }

  function PlacesOf(es: Entries, indent: nat): Sheet
  {
    Places(Ground, 0, RenderEntries(es, indent))
  }

  /** Two keys belong to one mapping exactly when both are seen, and in one frame. */
  predicate Faithful(es: Entries, indent: nat)
  {
    var slots, places := Slots(es, 0, 0), PlacesOf(es, indent);
    forall i, j :: 0 <= i < j < |slots| && j < |places| ==> (Same(slots, i, j) <==> Same(places, i, j))
  }

  /** In a faithful layout the report is right. */
  lemma FaithfulIsRight(es: Entries, indent: nat)
    requires Faithful(es, indent)
    ensures Run(START, RenderEntries(es, indent)).errors == [] <==> Distinct(es, {})
  {
    ReportsExactlyTheRepeats(RenderEntries(es, indent));
    EntriesUnique(es, 0, 0, {});
    EntriesShow(es, indent, 0, 0);
    var slots, places := Slots(es, 0, 0), PlacesOf(es, indent);
    if Unique(slots) {
      forall i, j | 0 <= i < j < |places| && places[i].Some? && places[j].Some? ensures places[i] != places[j] {
        assert Same(slots, i, j) <==> Same(places, i, j);
      }
    }
    if Unique(places) {
      forall i, j | 0 <= i < j < |slots| && slots[i].Some? && slots[j].Some? ensures slots[i] != slots[j] {
        assert Same(slots, i, j) <==> Same(places, i, j);
      }
    }
  }

  /** The report and the tree agree. */
  predicate Right(es: Entries, indent: nat)
  {
    Run(START, RenderEntries(es, indent)).errors == [] <==> Distinct(es, {})
  }

  // ---- Renaming keys ----

  /** The same layout with the key on each line renamed. */
  function Rename(es: Entries, names: nat -> string, at: nat): Entries
  {
    match es
    case NoEntries => NoEntries
    case MoreEntries(_, value, rest) =>
      MoreEntries(names(at), RenameValue(value, names, at + 1), Rename(rest, names, at + 1 + SizeValue(value)))
  }

  function RenameValue(value: Value, names: nat -> string, at: nat): Value
  {
    match value
    case Scalar => Scalar
    case Null => Null
    case Nested(step, entries) => Nested(step, Rename(entries, names, at))
    case Sequence(offset, items) => Sequence(offset, RenameItems(items, names, at))
  }

  function RenameItems(items: Items, names: nat -> string, at: nat): Items
  {
    match items
    case NoItems => NoItems
    case PlainItem(rest) => PlainItem(RenameItems(rest, names, at + 1))
    case MappingItem(gap, _, value, more, rest) =>
      MappingItem(gap, names(at), RenameValue(value, names, at + 1), Rename(more, names, at + 1 + SizeValue(value)),
                  RenameItems(rest, names, at + 1 + SizeValue(value) + Size(more)))
    case NestedItem(gap, inner, rest) =>
      NestedItem(gap, RenameItems(inner, names, at), RenameItems(rest, names, at + Most(1, SizeItems(inner))))
  }

  function Rekeyed(slots: Sheet, names: nat -> string, at: nat): (r: Sheet)
    ensures |r| == |slots|
    ensures forall i :: 0 <= i < |r| ==>
              r[i] == if slots[i].Some? then Some(Slot(slots[i].value.node, names(at + i))) else None
  {
    seq(|slots|, i requires 0 <= i < |slots| =>
      if slots[i].Some? then Some(Slot(slots[i].value.node, names(at + i))) else None)
  }

  function Relined(lines: seq<Line>, names: nat -> string, at: nat): (r: seq<Line>)
    ensures |r| == |lines|
    ensures forall i :: 0 <= i < |r| ==> r[i] == if lines[i].Entry? then lines[i].(key := names(at + i)) else Other
  {
    seq(|lines|, i requires 0 <= i < |lines| =>
      if lines[i].Entry? then lines[i].(key := names(at + i)) else Other)
  }

  /** Renaming changes keys only, in lines and slots alike. */
  predicate Renames(lines: seq<Line>, slots: Sheet, lines': seq<Line>, slots': Sheet,
                    names: nat -> string, at: nat)
  {
    |lines| == |slots| && lines' == Relined(lines, names, at) && slots' == Rekeyed(slots, names, at)
  }

  lemma RenamesConcat(a: seq<Line>, x: Sheet, a': seq<Line>, x': Sheet,
                      b: seq<Line>, y: Sheet, b': seq<Line>, y': Sheet,
                      names: nat -> string, at: nat)
    requires Renames(a, x, a', x', names, at) && Renames(b, y, b', y', names, at + |a|)
    ensures Renames(a + b, x + y, a' + b', x' + y', names, at)
    ensures |a| == |x| == |a'| == |x'|
  {
    assert a' + b' == Relined(a + b, names, at);
    assert x' + y' == Rekeyed(x + y, names, at);
  }

  lemma RenamesOne(line: Line, slot: Option<Slot>, line': Line, slot': Option<Slot>, names: nat -> string, at: nat)
    requires line' == if line.Entry? then line.(key := names(at)) else Other
    requires slot' == if slot.Some? then Some(Slot(slot.value.node, names(at))) else None
    ensures Renames([line], [slot], [line'], [slot'], names, at)
  {
    assert Relined([line], names, at)[0] == line';
    assert Rekeyed([slot], names, at)[0] == slot';
  }

  lemma RenamesHidden(a: seq<Line>, x: Sheet, a': seq<Line>, x': Sheet, names: nat -> string, at: nat)
    requires Renames(a, x, a', x', names, at)
    ensures Renames([Other] + Tail(a), OnOneLine(x), [Other] + Tail(a'), OnOneLine(x'), names, at)
    ensures |[Other] + Tail(a)| == Most(1, |x|)
  {
    assert [Other] + Tail(a') == Relined([Other] + Tail(a), names, at);
    assert OnOneLine(x') == Rekeyed(OnOneLine(x), names, at);
  }

  lemma RenamesNothing(names: nat -> string, at: nat)
    ensures Renames([], [], [], [], names, at)
  {
  }

  lemma {:induction false} EntriesRenamed(es: Entries, names: nat -> string, indent: nat, node: nat, at: nat)
    ensures Renames(RenderEntries(es, indent), Slots(es, node, at),
                    RenderEntries(Rename(es, names, at), indent), Slots(Rename(es, names, at), node, at), names, at)
    ensures Size(Rename(es, names, at)) == Size(es)
    decreases es, 0
  {
    hide Renames;
    match es
    case NoEntries => RenamesNothing(names, at);
    case MoreEntries(key, value, rest) =>
      var next := at + 1 + SizeValue(value);
      var es' := Rename(es, names, at);
      var line, line' := Entry(indent, 0, key, value.Scalar?), Entry(indent, 0, names(at), value.Scalar?);
      RenamesOne(line, Some(Slot(node, key)), line', Some(Slot(node, names(at))), names, at);
      ValueRenamed(value, names, indent, at + 1);
      RenamesConcat([line], [Some(Slot(node, key))], [line'], [Some(Slot(node, names(at)))],
                    RenderValue(value, indent), SlotsOfValue(value, at + 1),
                    RenderValue(es'.value, indent), SlotsOfValue(es'.value, at + 1), names, at);
      EntriesRenamed(rest, names, indent, node, next);
      ValueShows(value, indent, at + 1);
      RenamesConcat([line] + RenderValue(value, indent), [Some(Slot(node, key))] + SlotsOfValue(value, at + 1),
                    [line'] + RenderValue(es'.value, indent), [Some(Slot(node, names(at)))] + SlotsOfValue(es'.value, at + 1),
                    RenderEntries(rest, indent), Slots(rest, node, next),
                    RenderEntries(es'.rest, indent), Slots(es'.rest, node, next), names, at);
  }

  lemma {:induction false} ValueRenamed(value: Value, names: nat -> string, indent: nat, at: nat)
    ensures Renames(RenderValue(value, indent), SlotsOfValue(value, at),
                    RenderValue(RenameValue(value, names, at), indent), SlotsOfValue(RenameValue(value, names, at), at), names, at)
    ensures SizeValue(RenameValue(value, names, at)) == SizeValue(value)
    decreases value, 0
  {
    match value
    case Scalar => RenamesNothing(names, at);
    case Null => RenamesNothing(names, at);
    case Nested(step, entries) => EntriesRenamed(entries, names, indent + 1 + step, at, at);
    case Sequence(offset, items) => ItemsRenamed(items, names, indent + offset, at);
  }

  predicate RenamedItems(items: Items, names: nat -> string, indent: nat, at: nat)
  {
    var items' := RenameItems(items, names, at);
    && Renames(RenderItems(items, indent), SlotsOfItems(items, at),
               RenderItems(items', indent), SlotsOfItems(items', at), names, at)
    && SizeItems(items') == SizeItems(items)
  }

  lemma {:induction false} ItemsRenamed(items: Items, names: nat -> string, indent: nat, at: nat)
    ensures RenamedItems(items, names, indent, at)
    decreases items, 2
  {
    match items
    case NoItems => RenamesNothing(names, at);
    case PlainItem(_) => PlainItemRenamed(items, names, indent, at);
    case MappingItem(_, _, _, _, _) => MappingItemRenamed(items, names, indent, at);
    case NestedItem(_, _, _) => NestedItemRenamed(items, names, indent, at);
  }

  lemma {:induction false} PlainItemRenamed(items: Items, names: nat -> string, indent: nat, at: nat)
    requires items.PlainItem?
    ensures RenamedItems(items, names, indent, at)
    decreases items, 1
  {
    hide Renames;
    var rest, rest' := items.rest, RenameItems(items.rest, names, at + 1);
    RenamesOne(Other, None, Other, None, names, at);
    ItemsRenamed(rest, names, indent, at + 1);
    RenamesConcat([Other], [None], [Other], [None], RenderItems(rest, indent), SlotsOfItems(rest, at + 1),
                  RenderItems(rest', indent), SlotsOfItems(rest', at + 1), names, at);
  }

  lemma {:induction false} MappingItemRenamed(items: Items, names: nat -> string, indent: nat, at: nat)
    requires items.MappingItem?
    ensures RenamedItems(items, names, indent, at)
    decreases items, 1
  {
    hide Renames;
    var next := at + 1 + SizeValue(items.value) + Size(items.more);
    var items', rest, rest' := RenameItems(items, names, at), items.rest, RenameItems(items.rest, names, next);
    MappingRenamed(items, names, indent, at);
    MappingShows(items, indent, at);
    ItemsRenamed(rest, names, indent, next);
    RenamesConcat(ItemLines(items, indent), MappingSlots(items, at), ItemLines(items', indent), MappingSlots(items', at),
                  RenderItems(rest, indent), SlotsOfItems(rest, next),
                  RenderItems(rest', indent), SlotsOfItems(rest', next), names, at);
  }

  lemma {:induction false} NestedItemRenamed(items: Items, names: nat -> string, indent: nat, at: nat)
    requires items.NestedItem?
    ensures RenamedItems(items, names, indent, at)
    decreases items, 1
  {
    hide Renames, Tail, OnOneLine;
    var next, deeper := at + Most(1, SizeItems(items.items)), indent + 2 + items.gap;
    var inner, inner' := items.items, RenameItems(items.items, names, at);
    var rest, rest' := items.rest, RenameItems(items.rest, names, next);
    NestedRenamed(items, names, indent, at);
    ItemsRenamed(rest, names, indent, next);
    RenamesConcat([Other] + Tail(RenderItems(inner, deeper)), OnOneLine(SlotsOfItems(inner, at)),
                  [Other] + Tail(RenderItems(inner', deeper)), OnOneLine(SlotsOfItems(inner', at)),
                  RenderItems(rest, indent), SlotsOfItems(rest, next),
                  RenderItems(rest', indent), SlotsOfItems(rest', next), names, at);
  }

  lemma {:induction false} NestedRenamed(items: Items, names: nat -> string, indent: nat, at: nat)
    requires items.NestedItem?
    ensures
      var deeper, inner := indent + 2 + items.gap, RenameItems(items, names, at).items;
      && Renames([Other] + Tail(RenderItems(items.items, deeper)), OnOneLine(SlotsOfItems(items.items, at)),
                 [Other] + Tail(RenderItems(inner, deeper)), OnOneLine(SlotsOfItems(inner, at)), names, at)
      && SizeItems(inner) == SizeItems(items.items)
      && |[Other] + Tail(RenderItems(items.items, deeper))| == Most(1, SizeItems(items.items))
    decreases items, 0
  {
    hide Renames;
    var deeper, inner := indent + 2 + items.gap, RenameItems(items, names, at).items;
    ItemsRenamed(items.items, names, deeper, at);
    RenamesHidden(RenderItems(items.items, deeper), SlotsOfItems(items.items, at),
                  RenderItems(inner, deeper), SlotsOfItems(inner, at), names, at);
  }

  lemma {:induction false} MappingRenamed(items: Items, names: nat -> string, indent: nat, at: nat)
    requires items.MappingItem?
    ensures
      var items' := RenameItems(items, names, at);
      && Renames(ItemLines(items, indent), MappingSlots(items, at), ItemLines(items', indent), MappingSlots(items', at), names, at)
      && SizeValue(items'.value) == SizeValue(items.value) && Size(items'.more) == Size(items.more)
    decreases items, 0
  {
    hide Renames;
    var MappingItem(gap, key, value, more, _) := items;
    var items' := RenameItems(items, names, at);
    var deeper, next := indent + 2 + gap, at + 1 + SizeValue(value);
    var line := Entry(indent, 2 + gap, key, value.Scalar?);
    var line' := Entry(indent, 2 + gap, names(at), value.Scalar?);
    RenamesOne(line, Some(Slot(at, key)), line', Some(Slot(at, names(at))), names, at);
    ValueRenamed(value, names, deeper, at + 1);
    RenamesConcat([line], [Some(Slot(at, key))], [line'], [Some(Slot(at, names(at)))],
                  RenderValue(value, deeper), SlotsOfValue(value, at + 1),
                  RenderValue(items'.value, deeper), SlotsOfValue(items'.value, at + 1), names, at);
    EntriesRenamed(more, names, deeper, at, next);
    ValueShows(value, deeper, at + 1);
    RenamesConcat([line] + RenderValue(value, deeper), [Some(Slot(at, key))] + SlotsOfValue(value, at + 1),
                  [line'] + RenderValue(items'.value, deeper), [Some(Slot(at, names(at)))] + SlotsOfValue(items'.value, at + 1),
                  RenderEntries(more, deeper), Slots(more, at, next),
                  RenderEntries(items'.more, deeper), Slots(items'.more, at, next), names, at);
  }

  lemma RelinedFirst(lines: seq<Line>, names: nat -> string, at: nat)
    requires lines != []
    ensures
      var r := Relined(lines, names, at);
      r[0] == (if lines[0].Entry? then lines[0].(key := names(at)) else Other) && r[1..] == Relined(lines[1..], names, at + 1)
  {
  }

  lemma RekeyedFirst(first: Option<Slot>, rest: Sheet, names: nat -> string, at: nat)
    ensures Rekeyed([first] + rest, names, at)
         == [if first.Some? then Some(Slot(first.value.node, names(at))) else None] + Rekeyed(rest, names, at + 1)
  {
  }

  /** The frames do not depend on the keys. */
  lemma {:induction false} PlacesRenamed(fs: Frames, number: nat, lines: seq<Line>, names: nat -> string, at: nat)
    ensures Places(fs, number, Relined(lines, names, at)) == Rekeyed(Places(fs, number, lines), names, at)
    decreases |lines|
  {
    hide Relined, Rekeyed;
    if lines != [] {
      RelinedFirst(lines, names, at);
      var next := After(fs, number + 1, lines[0]);
      PlacesRenamed(next, number + 1, lines[1..], names, at + 1);
      RekeyedFirst(PlaceOf(fs, number + 1, lines[0]), Places(next, number + 1, lines[1..]), names, at);
    }
  }

  // ---- The theorem ----

  /** A key of its own for each line. */
  function Unary(n: nat): (s: string)
    ensures |s| == n + 1
  {
    seq(n + 1, _ => 'a')
  }

  /** All keys differ, but for those on two lines. */
  function Merging(i: nat, j: nat): nat -> string
  {
    (p: nat) => Unary(if p == j then i else p)
  }

  lemma MergedKeys(slots: Sheet, i: nat, j: nat)
    requires i < j < |slots|
    ensures Unique(Rekeyed(slots, Merging(i, j), 0)) <==> !Same(slots, i, j)
  {
    var names := Merging(i, j);
    var r := Rekeyed(slots, names, 0);
    if !Same(slots, i, j) {
      forall a, b | 0 <= a < b < |r| && r[a].Some? && r[b].Some? ensures r[a] != r[b] {
        assert names(a) == Unary(if a == j then i else a);
        assert names(b) == Unary(if b == j then i else b);
      }
    } else {
      assert r[i] == r[j];
    }
  }

  /** What renaming does to a tree, its slots and its places. */
  lemma RenamedTree(es: Entries, indent: nat, names: nat -> string)
    ensures Slots(Rename(es, names, 0), 0, 0) == Rekeyed(Slots(es, 0, 0), names, 0)
    ensures PlacesOf(Rename(es, names, 0), indent) == Rekeyed(PlacesOf(es, indent), names, 0)
    ensures |Slots(es, 0, 0)| == |PlacesOf(es, indent)|
  {
    EntriesRenamed(es, names, indent, 0, 0);
    PlacesRenamed(Ground, 0, RenderEntries(es, indent), names, 0);
  }

  lemma RightMeans(es: Entries, indent: nat)
    ensures Right(es, indent) <==> (Unique(PlacesOf(es, indent)) <==> Unique(Slots(es, 0, 0)))
  {
    ReportsExactlyTheRepeats(RenderEntries(es, indent));
    EntriesUnique(es, 0, 0, {});
  }

  lemma FaithfulStaysRight(es: Entries, indent: nat, names: nat -> string)
    requires Faithful(es, indent)
    ensures Right(Rename(es, names, 0), indent)
  {
    hide Rename, Slots, PlacesOf, RenderEntries, Run, Distinct;
    RenamedTree(es, indent, names);
    var slots, places := Slots(es, 0, 0), PlacesOf(es, indent);
    var slots', places' := Rekeyed(slots, names, 0), Rekeyed(places, names, 0);
    forall i, j | 0 <= i < j < |slots'| && j < |places'| ensures Same(slots', i, j) <==> Same(places', i, j) {
      assert Same(slots, i, j) <==> Same(places, i, j);
    }
    FaithfulIsRight(Rename(es, names, 0), indent);
  }

  /** Renaming two keys alike, and all others differently, tells whether they are compared
      exactly when they should be. */
  lemma RightMeansSame(es: Entries, indent: nat, i: nat, j: nat)
    requires i < j < |Slots(es, 0, 0)| && j < |PlacesOf(es, indent)|
    requires Right(Rename(es, Merging(i, j), 0), indent)
    ensures Same(Slots(es, 0, 0), i, j) <==> Same(PlacesOf(es, indent), i, j)
  {
    hide Rename, Slots, PlacesOf, Right, Unique, Same, Merging;
    RenamedTree(es, indent, Merging(i, j));
    RightMeans(Rename(es, Merging(i, j), 0), indent);
    MergedKeys(Slots(es, 0, 0), i, j);
    MergedKeys(PlacesOf(es, indent), i, j);
  }

  /** Report and tree agree however the keys of the layout are named. */
  ghost predicate AlwaysRight(es: Entries, indent: nat)
  {
    forall names: nat -> string :: Right(Rename(es, names, 0), indent)
  }

  lemma FaithfulFromNamings(es: Entries, indent: nat)
    requires AlwaysRight(es, indent)
    ensures Faithful(es, indent)
  {
    hide Rename, Right;
    var slots, places := Slots(es, 0, 0), PlacesOf(es, indent);
    forall i, j | 0 <= i < j < |slots| && j < |places| ensures Same(slots, i, j) <==> Same(places, i, j) {
      assert Right(Rename(es, Merging(i, j), 0), indent);
      RightMeansSame(es, indent, i, j);
    }
  }

  /** Exactly the faithful layouts are reported rightly under every naming of their keys. */
  lemma RightUnderEveryNaming(es: Entries, indent: nat)
    ensures Faithful(es, indent) <==> AlwaysRight(es, indent)
  {
    hide Rename, Right, Faithful;
    if Faithful(es, indent) {
      forall names: nat -> string ensures Right(Rename(es, names, 0), indent) {
        FaithfulStaysRight(es, indent, names);
      }
      assert AlwaysRight(es, indent);
    } else if AlwaysRight(es, indent) {
      FaithfulFromNamings(es, indent);
    }
  }
}
