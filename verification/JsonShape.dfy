// Bounds on decoded JSON: the explicit-stack check (lab_config.py, validate_json_shape) and
// the recursive early-exit check (sbom_evidence.py, validate_json_shape), each against
// recursively defined sizes and depths.

module JsonShape {
  import opened Wrappers

  /** Text as code points; a decoder can leave lone surrogates in it. */
  type Text = seq<nat>

  datatype Json =
    | Null | Bool(b: bool) | Integer(i: int) | Float
    | String(text: Text) | List(items: Items) | Dict(members: Members)

  datatype Items = NoItem | Item(head: Json, tail: Items)

  datatype Members = NoMember | Member(key: Text, value: Json, rest: Members)

  predicate HasSurrogate(text: Text)
  {
    exists k :: 0 <= k < |text| && 0xD800 <= text[k] <= 0xDFFF
  }

  // ---- The explicit stack ----

  const LAB_MAX_STRING: nat := 4096
  const LAB_MAX_DEPTH: nat := 64
  const LAB_MAX_ITEMS: nat := 100_000

  /** All nodes, with every key counted as one. */
  function Nodes(v: Json): (n: nat)
    ensures n >= 1
  {
    match v
    case List(items) => 1 + ItemNodes(items)
    case Dict(members) => 1 + MemberNodes(members)
    case _ => 1
  }

  function ItemNodes(items: Items): nat
  {
    match items
    case NoItem => 0
    case Item(head, tail) => Nodes(head) + ItemNodes(tail)
  }

  function MemberNodes(members: Members): nat
  {
    match members
    case NoMember => 0
    case Member(_, value, rest) => 1 + Nodes(value) + MemberNodes(rest)
  }

  function Max(a: nat, b: nat): nat
  {
    if a >= b then a else b
  }

  /** Levels of nesting, a key standing one below its object. */
  function Levels(v: Json): (n: nat)
    ensures n >= 1
  {
    match v
    case List(items) => 1 + ItemLevels(items)
    case Dict(members) => 1 + MemberLevels(members)
    case _ => 1
  }

  function ItemLevels(items: Items): nat
  {
    match items
    case NoItem => 0
    case Item(head, tail) => Max(Levels(head), ItemLevels(tail))
  }

  function MemberLevels(members: Members): nat
  {
    match members
    case NoMember => 0
    case Member(_, value, rest) => Max(Levels(value), MemberLevels(rest))
  }

  predicate LabText(text: Text)
  {
    |text| <= LAB_MAX_STRING && !HasSurrogate(text)
  }

  /** Every string, key or value, is acceptable. */
  predicate LabTexts(v: Json)
  {
    match v
    case String(text) => LabText(text)
    case List(items) => ItemTexts(items)
    case Dict(members) => MemberTexts(members)
    case _ => true
  }

  predicate ItemTexts(items: Items)
  {
    items.NoItem? || (LabTexts(items.head) && ItemTexts(items.tail))
  }

  predicate MemberTexts(members: Members)
  {
    members.NoMember? || (LabText(members.key) && LabTexts(members.value) && MemberTexts(members.rest))
  }

  /** A value acceptable at a depth, its count aside. */
  predicate Sound(v: Json, depth: nat)
  {
    depth <= LAB_MAX_DEPTH &&
    match v
    case String(text) => LabText(text)
    case List(items) => ItemsSound(items, depth + 1)
    case Dict(members) => KeysSound(members, depth + 1) && ValuesSound(members, depth + 1)
    case _ => true
  }

  predicate ItemsSound(items: Items, depth: nat)
  {
    items.NoItem? || (Sound(items.head, depth) && ItemsSound(items.tail, depth))
  }

  predicate KeysSound(members: Members, depth: nat)
  {
    members.NoMember? || (depth <= LAB_MAX_DEPTH && LabText(members.key) && KeysSound(members.rest, depth))
  }

  predicate ValuesSound(members: Members, depth: nat)
  {
    members.NoMember? || (Sound(members.value, depth) && ValuesSound(members.rest, depth))
  }

  function Keys(members: Members): nat
  {
    if members.NoMember? then 0 else 1 + Keys(members.rest)
  }

  function Values(members: Members): nat
  {
    if members.NoMember? then 0 else Nodes(members.value) + Values(members.rest)
  }

  /** Acceptance at a depth is a bound on the levels and on every string. */
  lemma {:induction false} SoundMeans(v: Json, depth: nat)
    requires depth >= 1
    ensures Sound(v, depth) <==> LabTexts(v) && depth + Levels(v) - 1 <= LAB_MAX_DEPTH
    decreases v
  {
    match v
    case List(items) => SoundItems(items, depth + 1);
    case Dict(members) => SoundMembers(members, depth + 1);
    case _ =>
  }

  lemma {:induction false} SoundItems(items: Items, depth: nat)
    requires depth >= 1
    ensures ItemsSound(items, depth) <==> ItemTexts(items) && (items.Item? ==> depth + ItemLevels(items) - 1 <= LAB_MAX_DEPTH)
    decreases items
  {
    if items.Item? {
      SoundMeans(items.head, depth);
      SoundItems(items.tail, depth);
    }
  }

  lemma {:induction false} SoundMembers(members: Members, depth: nat)
    requires depth >= 1
    ensures
      KeysSound(members, depth) && ValuesSound(members, depth) <==>
      MemberTexts(members) && (members.Member? ==> depth + MemberLevels(members) - 1 <= LAB_MAX_DEPTH)
    decreases members
  {
    if members.Member? {
      SoundMeans(members.value, depth);
      SoundMembers(members.rest, depth);
    }
  }

  lemma {:induction false} KeysAndValues(members: Members)
    ensures Keys(members) + Values(members) == MemberNodes(members)
  {
    if members.Member? {
      KeysAndValues(members.rest);
    }
  }

  /** Work still to do, the next value on top. */
  datatype Pending = Bottom | Push(below: Pending, value: Json, depth: nat)

  function Left(pending: Pending): nat
  {
    match pending
    case Bottom => 0
    case Push(below, value, _) => Left(below) + Nodes(value)
  }

  predicate AllSound(pending: Pending)
  {
    match pending
    case Bottom => true
    case Push(below, value, depth) => AllSound(below) && Sound(value, depth)
  }

  method PushItems(pending: Pending, items: Items, depth: nat) returns (more: Pending)
    ensures Left(more) == Left(pending) + ItemNodes(items)
    ensures AllSound(more) <==> AllSound(pending) && ItemsSound(items, depth)
  {
    more := pending;
    var rest := items;
    while rest.Item?
      invariant Left(more) + ItemNodes(rest) == Left(pending) + ItemNodes(items)
      invariant AllSound(more) && ItemsSound(rest, depth) <==> AllSound(pending) && ItemsSound(items, depth)
      decreases rest
    {
      more := Push(more, rest.head, depth);
      rest := rest.tail;
    }
  }

  method PushKeys(pending: Pending, members: Members, depth: nat) returns (more: Pending)
    ensures Left(more) == Left(pending) + Keys(members)
    ensures AllSound(more) <==> AllSound(pending) && KeysSound(members, depth)
  {
    more := pending;
    var rest := members;
    while rest.Member?
      invariant Left(more) + Keys(rest) == Left(pending) + Keys(members)
      invariant AllSound(more) && KeysSound(rest, depth) <==> AllSound(pending) && KeysSound(members, depth)
      decreases rest
    {
      more := Push(more, String(rest.key), depth);
      rest := rest.rest;
    }
  }

  method PushValues(pending: Pending, members: Members, depth: nat) returns (more: Pending)
    ensures Left(more) == Left(pending) + Values(members)
    ensures AllSound(more) <==> AllSound(pending) && ValuesSound(members, depth)
  {
    more := pending;
    var rest := members;
    while rest.Member?
      invariant Left(more) + Values(rest) == Left(pending) + Values(members)
      invariant AllSound(more) && ValuesSound(rest, depth) <==> AllSound(pending) && ValuesSound(members, depth)
      decreases rest
    {
      more := Push(more, rest.value, depth);
      rest := rest.rest;
    }
  }

  /** One value taken off the stack, its parts put on it. */
  method Visit(current: Json, depth: nat, pending: Pending) returns (ok: bool, more: Pending)
    ensures !ok ==> !Sound(current, depth)
    ensures ok ==> Left(more) + 1 == Left(pending) + Nodes(current)
    ensures ok ==> (AllSound(more) <==> AllSound(pending) && Sound(current, depth))
  {
    more := pending;
    if depth > LAB_MAX_DEPTH {
      return false, more;
    }
    match current {
      case String(text) =>
        if |text| > LAB_MAX_STRING {
          return false, more;
        }
        if HasSurrogate(text) {
          return false, more;
        }
      case Dict(members) =>
        KeysAndValues(members);
        more := PushKeys(more, members, depth + 1);
        more := PushValues(more, members, depth + 1);
      case List(elements) =>
        more := PushItems(more, elements, depth + 1);
      case _ =>
    }
    return true, more;
  }

  /** The stack empties, and nothing is refused, exactly within the bounds. */
  method ValidateWithStack(value: Json) returns (ok: bool)
    ensures ok <==> Nodes(value) <= LAB_MAX_ITEMS && Sound(value, 1)
  {
    hide Nodes, Sound;
    var pending := Push(Bottom, value, 1);
    var items: nat := 0;
    while pending.Push?
      invariant items + Left(pending) == Nodes(value)
      invariant items <= LAB_MAX_ITEMS
      invariant AllSound(pending) <==> Sound(value, 1)
      decreases Left(pending)
    {
      var current, depth := pending.value, pending.depth;
      items := items + 1;
      if items > LAB_MAX_ITEMS {
        return false;
      }
      ok, pending := Visit(current, depth, pending.below);
      if !ok {
        return;
      }
    }
    return true;
  }

  // ---- The recursive check ----

  /** The bounds a caller chooses. */
  datatype Limits = Limits(depth: nat, items: nat, text: nat, whitespace: bool)

  /** Nodes, with keys not counted. */
  function Size(v: Json): (n: nat)
    ensures n >= 1
  {
    match v
    case List(items) => 1 + ItemSize(items)
    case Dict(members) => 1 + MemberSize(members)
    case _ => 1
  }

  function ItemSize(items: Items): nat
  {
    match items
    case NoItem => 0
    case Item(head, tail) => Size(head) + ItemSize(tail)
  }

  function MemberSize(members: Members): nat
  {
    match members
    case NoMember => 0
    case Member(_, value, rest) => Size(value) + MemberSize(rest)
  }

  predicate Control(c: nat)
  {
    c < 0x20 || c == 0x7F
  }

  predicate EvidenceText(text: Text, limits: Limits)
  {
    && |text| <= limits.text && !HasSurrogate(text)
    && forall k :: 0 <= k < |text| && Control(text[k]) ==> limits.whitespace && text[k] in [0x09, 0x0A, 0x0D]
  }

  /** A key is bounded like a string, never empty, and never holds a control. */
  predicate EvidenceKey(text: Text, limits: Limits)
  {
    text != [] && EvidenceText(text, limits.(whitespace := false))
  }

  /** Only supported values, acceptable strings and keys. */
  predicate Supported(v: Json, limits: Limits)
  {
    match v
    case Float => false
    case String(text) => EvidenceText(text, limits)
    case List(items) => ItemsSupported(items, limits)
    case Dict(members) => MembersSupported(members, limits)
    case _ => true
  }

  predicate ItemsSupported(items: Items, limits: Limits)
  {
    items.NoItem? || (Supported(items.head, limits) && ItemsSupported(items.tail, limits))
  }

  predicate MembersSupported(members: Members, limits: Limits)
  {
    members.NoMember? ||
    (EvidenceKey(members.key, limits) && Supported(members.value, limits) && MembersSupported(members.rest, limits))
  }

  /** Levels of containers above the deepest value; keys have no depth. */
  function Height(v: Json): nat
  {
    match v
    case List(items) => ItemHeight(items)
    case Dict(members) => MemberHeight(members)
    case _ => 0
  }

  function ItemHeight(items: Items): nat
  {
    match items
    case NoItem => 0
    case Item(head, tail) => Max(1 + Height(head), ItemHeight(tail))
  }

  function MemberHeight(members: Members): nat
  {
    match members
    case NoMember => 0
    case Member(_, value, rest) => Max(1 + Height(value), MemberHeight(rest))
  }

  /** What the recursive check accepts at a depth. A value without parts is never compared
      with the item bound. */
  predicate EvidenceAccepts(v: Json, depth: nat, limits: Limits)
  {
    && Supported(v, limits)
    && depth + Height(v) <= limits.depth
    && (Size(v) <= limits.items || Size(v) == 1)
  }

  /** The counting loop over the parts of a list, as a function. */
  function CountRest(items: Items, sum: nat, depth: nat, limits: Limits): Option<nat>
  {
    match items
    case NoItem => Some(sum)
    case Item(head, tail) =>
      if !EvidenceAccepts(head, depth, limits) || sum + Size(head) > limits.items then None
      else CountRest(tail, sum + Size(head), depth, limits)
  }

  function CountValues(members: Members, sum: nat, depth: nat, limits: Limits): Option<nat>
  {
    match members
    case NoMember => Some(sum)
    case Member(key, value, rest) =>
      if !EvidenceKey(key, limits) || !EvidenceAccepts(value, depth, limits) || sum + Size(value) > limits.items then None
      else CountValues(rest, sum + Size(value), depth, limits)
  }

  lemma {:induction false} CountRestSums(items: Items, sum: nat, depth: nat, limits: Limits)
    ensures CountRest(items, sum, depth, limits).Some? ==> CountRest(items, sum, depth, limits).value == sum + ItemSize(items)
    ensures CountRest(items, sum, depth, limits).Some? && items.Item? ==> sum + ItemSize(items) <= limits.items
    decreases items
  {
    if items.Item? {
      CountRestSums(items.tail, sum + Size(items.head), depth, limits);
    }
  }

  /** An early exit happens exactly when the full count would be too large. */
  lemma {:induction false} CountRestMeans(items: Items, sum: nat, depth: nat, limits: Limits)
    requires sum >= 1 && depth >= 1
    ensures
      CountRest(items, sum, depth, limits).Some? <==>
      items.NoItem? || (ItemsSupported(items, limits) && depth - 1 + ItemHeight(items) <= limits.depth
                        && sum + ItemSize(items) <= limits.items)
    decreases items
  {
    if items.Item? {
      CountRestMeans(items.tail, sum + Size(items.head), depth, limits);
    }
  }

  lemma {:induction false} CountValuesMeans(members: Members, sum: nat, depth: nat, limits: Limits)
    requires sum >= 1 && depth >= 1
    ensures
      CountValues(members, sum, depth, limits) ==
      if members.NoMember? || (MembersSupported(members, limits) && depth - 1 + MemberHeight(members) <= limits.depth
                               && sum + MemberSize(members) <= limits.items)
      then Some(sum + MemberSize(members)) else None
    decreases members
  {
    if members.Member? {
      CountValuesMeans(members.rest, sum + Size(members.value), depth, limits);
    }
  }

  lemma ListAccepted(items: Items, depth: nat, limits: Limits)
    requires depth <= limits.depth
    ensures
      CountRest(items, 1, depth + 1, limits) ==
      if EvidenceAccepts(List(items), depth, limits) then Some(Size(List(items))) else None
  {
    CountRestMeans(items, 1, depth + 1, limits);
    CountRestSums(items, 1, depth + 1, limits);
    hide CountRest;
    assert Supported(List(items), limits) == ItemsSupported(items, limits);
    assert Height(List(items)) == ItemHeight(items) && Size(List(items)) == 1 + ItemSize(items);
    assert items.NoItem? ==> ItemsSupported(items, limits) && ItemHeight(items) == 0 && ItemSize(items) == 0;
  }

  lemma DictAccepted(members: Members, depth: nat, limits: Limits)
    requires depth <= limits.depth
    ensures
      CountValues(members, 1, depth + 1, limits) ==
      if EvidenceAccepts(Dict(members), depth, limits) then Some(Size(Dict(members))) else None
  {
    CountValuesMeans(members, 1, depth + 1, limits);
    hide CountValues;
    assert Supported(Dict(members), limits) == MembersSupported(members, limits);
    assert Height(Dict(members)) == MemberHeight(members) && Size(Dict(members)) == 1 + MemberSize(members);
    assert members.NoMember? ==> MembersSupported(members, limits) && MemberHeight(members) == 0 && MemberSize(members) == 0;
  }

  /** Counting while descending, with an exit as soon as a count exceeds the bound, accepts
      exactly by the size of the whole value. */
  method ValidateRecursively(value: Json, depth: nat, limits: Limits) returns (count: Option<nat>)
    ensures count == if EvidenceAccepts(value, depth, limits) then Some(Size(value)) else None
    decreases value
  {
    hide CountRest, CountValues;
    if depth > limits.depth {
      return None;
    }
    match value
    case Null => return Some(1);
    case Bool(_) => return Some(1);
    case Integer(_) => return Some(1);
    case Float => return None;
    case String(text) =>
      if |text| > limits.text || HasSurrogate(text) {
        return None;
      }
      if exists k :: 0 <= k < |text| && Control(text[k]) && !(limits.whitespace && text[k] in [0x09, 0x0A, 0x0D]) {
        return None;
      }
      return Some(1);
    case List(items) =>
      ListAccepted(items, depth, limits);
      count := CountItems(items, depth, limits);
    case Dict(members) =>
      DictAccepted(members, depth, limits);
      count := CountMembers(members, depth, limits);
  }

  method CountItems(items: Items, depth: nat, limits: Limits) returns (count: Option<nat>)
    ensures count == CountRest(items, 1, depth + 1, limits)
    decreases items
  {
    var sum: nat, rest := 1, items;
    while rest.Item?
      invariant rest == items || rest < items
      invariant CountRest(rest, sum, depth + 1, limits) == CountRest(items, 1, depth + 1, limits)
      decreases rest
    {
      var one := ValidateRecursively(rest.head, depth + 1, limits);
      if one.None? {
        return None;
      }
      sum := sum + one.value;
      if sum > limits.items {
        return None;
      }
      rest := rest.tail;
    }
    return Some(sum);
  }

  method CountMembers(members: Members, depth: nat, limits: Limits) returns (count: Option<nat>)
    ensures count == CountValues(members, 1, depth + 1, limits)
    decreases members
  {
    var sum: nat, rest := 1, members;
    while rest.Member?
      invariant rest == members || rest < members
      invariant CountValues(rest, sum, depth + 1, limits) == CountValues(members, 1, depth + 1, limits)
      decreases rest
    {
      if !EvidenceKey(rest.key, limits) {
        return None;
      }
      var one := ValidateRecursively(rest.value, depth + 1, limits);
      if one.None? {
        return None;
      }
      sum := sum + one.value;
      if sum > limits.items {
        return None;
      }
      rest := rest.rest;
    }
    return Some(sum);
  }
}
