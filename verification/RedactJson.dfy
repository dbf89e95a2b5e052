/** Redacting, detecting and registering sensitive scalars of a JSON document. The three
    traversals are compared with one plain list: the scalars of the document with the names
    on the way to them. */
module RedactJson {
  /** Members of an object come in any order, as the map iteration gives them. */
  datatype Json =
    | Null
    | Bool(value: bool)
    | Number(text: string)
    | Text(text: string)
    | Array(items: seq<Json>)
    | Object(members: seq<Member>)

  datatype Member = Member(name: string, value: Json)

  /** `sensitive` decides about names, `trim` cuts surrounding white space. */
  datatype Rules = Rules(sensitive: string -> bool, trim: string -> string)

  const MARKER := "[REDACTED:secret]"

  predicate SensitivePath(rules: Rules, path: seq<string>) {
    exists i | 0 <= i < |path| :: rules.sensitive(path[i])
  }

  predicate IsScalar(v: Json) { !v.Array? && !v.Object? }

  predicate Redactable(v: Json) { v.Text? || v.Number? || v.Bool? }

  /** Short strings are redacted when something is, but alone are no reason to. */
  predicate Meaningful(rules: Rules, v: Json) {
    (v.Text? && |rules.trim(v.text)| > 8) || (v.Number? && rules.trim(v.text) != "") || v.Bool?
  }

  function TextOf(v: Json): string {
    match v
    case Text(text) => text
    case Number(text) => text
    case Bool(b) => if b then "true" else "false"
    case _ => ""
  }

  // ----- the three traversals ------------------------------------------------------------

  function RedactScalar(rules: Rules, path: seq<string>, v: Json): (Json, bool) {
    if SensitivePath(rules, path) && Redactable(v) then (Text(MARKER), true) else (v, false)
  }

  function Redact(rules: Rules, path: seq<string>, v: Json): (Json, bool)
    decreases v, 0
  {
    match v
    case Array(items) => var r := RedactItems(rules, path, items); (Array(r.0), r.1)
    case Object(members) => var r := RedactMembers(rules, path, members); (Object(r.0), r.1)
    case _ => RedactScalar(rules, path, v)
  }

  function RedactItems(rules: Rules, path: seq<string>, items: seq<Json>): (r: (seq<Json>, bool))
    ensures |r.0| == |items|
    decreases items, 1
  {
    if items == [] then ([], false)
    else
      var rest := RedactItems(rules, path, items[..|items| - 1]);
      var last := Redact(rules, path, items[|items| - 1]);
      (rest.0 + [last.0], rest.1 || last.1)
  }

  function RedactMembers(rules: Rules, path: seq<string>, members: seq<Member>): (r: (seq<Member>, bool))
    ensures |r.0| == |members|
    decreases members, 1
  {
    if members == [] then ([], false)
    else
      var member := members[|members| - 1];
      var rest := RedactMembers(rules, path, members[..|members| - 1]);
      var last := Redact(rules, path + [member.name], member.value);
      (rest.0 + [Member(member.name, last.0)], rest.1 || last.1)
  }

  predicate Detects(rules: Rules, path: seq<string>, v: Json)
    decreases v
  {
    match v
    case Array(items) => exists i | 0 <= i < |items| :: Detects(rules, path, items[i])
    case Object(members) => exists i | 0 <= i < |members| :: Detects(rules, path + [members[i].name], members[i].value)
    case _ => SensitivePath(rules, path) && Meaningful(rules, v)
  }

  function Registered(rules: Rules, path: seq<string>, v: Json): set<string>
    decreases v, 0
  {
    match v
    case Array(items) => RegisteredItems(rules, path, items)
    case Object(members) => RegisteredMembers(rules, path, members)
    case _ => if SensitivePath(rules, path) && Redactable(v) then {TextOf(v)} else {}
  }

  function RegisteredItems(rules: Rules, path: seq<string>, items: seq<Json>): set<string>
    decreases items, 1
  {
    if items == [] then {}
    else RegisteredItems(rules, path, items[..|items| - 1]) + Registered(rules, path, items[|items| - 1])
  }

  function RegisteredMembers(rules: Rules, path: seq<string>, members: seq<Member>): set<string>
    decreases members, 1
  {
    if members == [] then {}
    else
      var last := members[|members| - 1];
      RegisteredMembers(rules, path, members[..|members| - 1]) + Registered(rules, path + [last.name], last.value)
  }

  lemma {:induction false} RedactItemsAt(rules: Rules, path: seq<string>, items: seq<Json>)
    ensures forall i | 0 <= i < |items| :: RedactItems(rules, path, items).0[i] == Redact(rules, path, items[i]).0
  {
    if items != [] { RedactItemsAt(rules, path, items[..|items| - 1]); }
  }

  lemma {:induction false} RedactMembersAt(rules: Rules, path: seq<string>, members: seq<Member>)
    ensures forall i | 0 <= i < |members| ::
              RedactMembers(rules, path, members).0[i] ==
              Member(members[i].name, Redact(rules, path + [members[i].name], members[i].value).0)
  {
    if members != [] { RedactMembersAt(rules, path, members[..|members| - 1]); }
  }

  // ----- the walks over a document: each goes down to the scalars with the names above them ----

  /** A decoded document: maps and slices are objects, rewritten in place. */
  datatype Node = Scalar(value: Json) | Items(slice: Slice) | Members(dict: Dict)

  class Slice {
    var items: seq<Node>
    ghost const repr: set<object>

    constructor (items: seq<Node>, ghost inner: set<object>)
      ensures this.items == items && repr == inner + {this}
    {
      this.items := items;
      repr := inner + {this};
    }
  }

  /** A map, with its keys in the order in which the iteration gives them. */
  class Dict {
    const names: seq<string>
    var values: seq<Node>
    ghost const repr: set<object>

    constructor (names: seq<string>, values: seq<Node>, ghost inner: set<object>)
      ensures this.names == names && this.values == values && repr == inner + {this}
    {
      this.names, this.values := names, values;
      repr := inner + {this};
    }
  }

  /** The objects a document consists of. */
  ghost function Repr(n: Node): set<object> {
    match n
    case Scalar(_) => {}
    case Items(slice) => slice.repr
    case Members(dict) => dict.repr
  }

  /** A freshly decoded document is a tree: no object occurs twice in it. */
  ghost predicate Apart(kids: seq<Node>) {
    forall i, k | 0 <= i < k < |kids| :: Repr(kids[i]) !! Repr(kids[k])
  }

  ghost predicate Within(kids: seq<Node>, inner: set<object>) {
    forall i | 0 <= i < |kids| :: Repr(kids[i]) <= inner
  }

  /** The document stands for this value. */
  ghost predicate Holds(n: Node, v: Json)
    reads Repr(n)
    decreases v
  {
    match n
    case Scalar(value) => IsScalar(v) && value == v
    case Items(slice) =>
      && slice in slice.repr && v.Array? && |slice.items| == |v.items|
      && Apart(slice.items) && Within(slice.items, slice.repr - {slice})
      && forall i | 0 <= i < |v.items| :: Holds(slice.items[i], v.items[i])
    case Members(dict) =>
      && dict in dict.repr && v.Object? && |dict.values| == |v.members| == |dict.names|
      && Apart(dict.values) && Within(dict.values, dict.repr - {dict})
      && forall i | 0 <= i < |v.members| :: v.members[i].name == dict.names[i] && Holds(dict.values[i], v.members[i].value)
  }

  /** Redacts in place; only a scalar is replaced, by its parent. */
  method RedactSensitiveJSONValue(rules: Rules, path: seq<string>, n: Node, ghost v: Json) returns (r: Node, changed: bool)
    requires Holds(n, v)
    modifies Repr(n)
    ensures Holds(r, Redact(rules, path, v).0) && changed == Redact(rules, path, v).1
    ensures Repr(r) == Repr(n) && (!changed || !n.Scalar? ==> r == n)
    decreases v, 1
  {
    r, changed := n, false;
    match n
    case Items(slice) => changed := RedactArray(rules, path, slice, v.items);
    case Members(dict) => changed := RedactObject(rules, path, dict, v.members);
    case Scalar(value) =>
      if SensitivePath(rules, path) && Redactable(value) { return Scalar(Text(MARKER)), true; }
  }

  /** Separate nodes among these objects, each of which stands for its value. */
  ghost predicate HoldEach(kids: seq<Node>, values: seq<Json>, inner: set<object>)
    reads inner
  {
    && |kids| == |values| && Apart(kids) && Within(kids, inner)
    && forall i | 0 <= i < |kids| :: Holds(kids[i], values[i])
  }

  /** Redacting one of several nodes leaves the others alone. */
  method RedactKid(rules: Rules, path: seq<string>, kids: seq<Node>, i: nat, ghost values: seq<Json>, ghost inner: set<object>)
    returns (r: Node, changed: bool)
    requires i < |kids| && HoldEach(kids, values, inner)
    modifies inner
    ensures HoldEach(kids[i := r], values[i := Redact(rules, path, values[i]).0], inner)
    ensures changed == Redact(rules, path, values[i]).1 && (!changed ==> r == kids[i])
    decreases values[i], 2
  {
    hide Redact, SensitivePath;
    r, changed := RedactSensitiveJSONValue(rules, path, kids[i], values[i]);
    forall k | 0 <= k < |kids| && k != i ensures Holds(kids[k], values[k]) {
      assert Repr(kids[k]) !! Repr(kids[i]);
    }
  }

  /** The items when the first ones are redacted. */
  function Partly(rules: Rules, path: seq<string>, items: seq<Json>, i: nat): (r: seq<Json>)
    requires i <= |items|
    ensures |r| == |items|
  {
    RedactItems(rules, path, items[..i]).0 + items[i..]
  }

  method RedactArray(rules: Rules, path: seq<string>, slice: Slice, ghost items: seq<Json>) returns (changed: bool)
    requires Holds(Items(slice), Array(items))
    modifies slice.repr
    ensures Holds(Items(slice), Array(RedactItems(rules, path, items).0)) && changed == RedactItems(rules, path, items).1
    decreases items, 0
  {
    hide Redact, SensitivePath, RedactItems, HoldEach, Partly;
    changed := false;
    ghost var values, inner := items, slice.repr - {slice};
    HeldItems(slice, items);
    ItemsUpTo(rules, path, items);
    for i := 0 to |slice.items|
      invariant |slice.items| == |items| && HoldEach(slice.items, values, inner)
      invariant values == Partly(rules, path, items, i) && changed == RedactItems(rules, path, items[..i]).1
    {
      NextItem(rules, path, items, i);
      var redacted, childChanged := RedactKid(rules, path, slice.items, i, values, inner);
      values := values[i := Redact(rules, path, items[i]).0];
      if childChanged {
        slice.items := slice.items[i := redacted];
        changed := true;
      } else {
        assert slice.items[i := redacted] == slice.items;
      }
    }
    ItemsHeld(slice, RedactItems(rules, path, items).0);
  }

  lemma HeldItems(slice: Slice, items: seq<Json>)
    requires Holds(Items(slice), Array(items))
    ensures HoldEach(slice.items, items, slice.repr - {slice}) && slice in slice.repr && |slice.items| == |items|
  {
  }

  lemma ItemsHeld(slice: Slice, items: seq<Json>)
    requires slice in slice.repr && HoldEach(slice.items, items, slice.repr - {slice})
    ensures Holds(Items(slice), Array(items))
  {
  }

  lemma ItemsUpTo(rules: Rules, path: seq<string>, items: seq<Json>)
    ensures Partly(rules, path, items, 0) == items && !RedactItems(rules, path, items[..0]).1
    ensures Partly(rules, path, items, |items|) == RedactItems(rules, path, items).0
    ensures items[..|items|] == items
  {
    assert items[..|items|] == items;
  }

  lemma NextItem(rules: Rules, path: seq<string>, items: seq<Json>, i: nat)
    requires i < |items|
    ensures Partly(rules, path, items, i)[i] == items[i]
    ensures Partly(rules, path, items, i)[i := Redact(rules, path, items[i]).0] == Partly(rules, path, items, i + 1)
    ensures RedactItems(rules, path, items[..i + 1]).1 ==
            (RedactItems(rules, path, items[..i]).1 || Redact(rules, path, items[i]).1)
  {
    hide Redact;
    assert items[..i + 1][..i] == items[..i];
  }

  function ValuesOf(members: seq<Member>): (r: seq<Json>)
    ensures |r| == |members| && forall i | 0 <= i < |r| :: r[i] == members[i].value
  {
    seq(|members|, i requires 0 <= i < |members| => members[i].value)
  }

  ghost predicate Named(members: seq<Member>, names: seq<string>) {
    |members| == |names| && forall i | 0 <= i < |names| :: members[i].name == names[i]
  }

  method RedactObject(rules: Rules, path: seq<string>, dict: Dict, ghost members: seq<Member>) returns (changed: bool)
    requires Holds(Members(dict), Object(members))
    modifies dict.repr
    ensures Holds(Members(dict), Object(RedactMembers(rules, path, members).0))
    ensures changed == RedactMembers(rules, path, members).1
    decreases members, 0
  {
    hide Redact, SensitivePath, RedactMembers, HoldEach, Named, ValuesOf;
    changed := false;
    ghost var values, inner := ValuesOf(members), dict.repr - {dict};
    HeldMembers(dict, members);
    MembersUpTo(rules, path, members);
    for i := 0 to |dict.values|
      invariant |dict.values| == |members| && HoldEach(dict.values, values, inner)
      invariant values == ValuesOf(RedactMembers(rules, path, members[..i]).0 + members[i..])
      invariant changed == RedactMembers(rules, path, members[..i]).1
    {
      NextMember(rules, path, members, dict.names, i);
      var redacted, childChanged := RedactKid(rules, path + [dict.names[i]], dict.values, i, values, inner);
      values := values[i := Redact(rules, path + [members[i].name], members[i].value).0];
      if childChanged {
        dict.values := dict.values[i := redacted];
        changed := true;
      } else {
        assert dict.values[i := redacted] == dict.values;
      }
    }
    RedactMembersAt(rules, path, members);
    MembersHeld(dict, members, RedactMembers(rules, path, members).0);
  }

  lemma HeldMembers(dict: Dict, members: seq<Member>)
    requires Holds(Members(dict), Object(members))
    ensures Named(members, dict.names) && HoldEach(dict.values, ValuesOf(members), dict.repr - {dict})
    ensures dict in dict.repr && |dict.values| == |members| == |dict.names|
  {
  }

  lemma MembersHeld(dict: Dict, before: seq<Member>, after: seq<Member>)
    requires dict in dict.repr && Named(before, dict.names) && |after| == |before| == |dict.values|
    requires forall i | 0 <= i < |after| :: after[i].name == before[i].name
    requires HoldEach(dict.values, ValuesOf(after), dict.repr - {dict})
    ensures Holds(Members(dict), Object(after))
  {
  }

  lemma MembersUpTo(rules: Rules, path: seq<string>, members: seq<Member>)
    ensures RedactMembers(rules, path, members[..0]).0 + members[0..] == members && !RedactMembers(rules, path, members[..0]).1
    ensures RedactMembers(rules, path, members[..|members|]).0 + members[|members|..] == RedactMembers(rules, path, members).0
    ensures members[..|members|] == members
  {
    assert members[..|members|] == members;
  }

  lemma NextMember(rules: Rules, path: seq<string>, members: seq<Member>, names: seq<string>, i: nat)
    requires i < |members| && Named(members, names)
    ensures var done, next := RedactMembers(rules, path, members[..i]), RedactMembers(rules, path, members[..i + 1]);
            var redacted := Redact(rules, path + [members[i].name], members[i].value);
            && members[i].name == names[i]
            && ValuesOf(done.0 + members[i..])[i] == members[i].value
            && ValuesOf(done.0 + members[i..])[i := redacted.0] == ValuesOf(next.0 + members[i + 1..])
            && next.1 == (done.1 || redacted.1)
  {
    hide Redact;
    assert members[..i + 1][..i] == members[..i];
  }

  /** Decoding builds a fresh tree, so every document can be handed to the walk. */
  method DecodeJSONDocument(v: Json) returns (n: Node)
    ensures Holds(n, v) && fresh(Repr(n))
    decreases v, 1
  {
    match v
    case Array(items) =>
      var kids, inner := DecodeItems(items);
      var slice := new Slice(kids, inner);
      ItemsHeld(slice, items);
      n := Items(slice);
    case Object(members) =>
      var names, kids, inner := DecodeMembers(members);
      var dict := new Dict(names, kids, inner);
      MembersHeld(dict, members, members);
      n := Members(dict);
    case _ => n := Scalar(v);
  }

  method DecodeItems(items: seq<Json>) returns (kids: seq<Node>, ghost inner: set<object>)
    ensures HoldEach(kids, items, inner) && fresh(inner)
    decreases items, 0
  {
    kids, inner := [], {};
    for i := 0 to |items|
      invariant HoldEach(kids, items[..i], inner) && fresh(inner)
    {
      var kid := DecodeJSONDocument(items[i]);
      HoldOneMore(kids, items[..i], inner, kid, items[i]);
      assert items[..i + 1] == items[..i] + [items[i]];
      kids, inner := kids + [kid], inner + Repr(kid);
    }
    assert items[..|items|] == items;
  }

  lemma HoldOneMore(kids: seq<Node>, values: seq<Json>, inner: set<object>, kid: Node, value: Json)
    requires HoldEach(kids, values, inner) && Holds(kid, value) && Repr(kid) !! inner
    ensures HoldEach(kids + [kid], values + [value], inner + Repr(kid))
  {
    hide Holds;
    assert forall i | 0 <= i < |kids| :: Repr(kids[i]) <= inner;
  }

  method DecodeMembers(members: seq<Member>) returns (names: seq<string>, kids: seq<Node>, ghost inner: set<object>)
    ensures Named(members, names) && HoldEach(kids, ValuesOf(members), inner) && fresh(inner)
    decreases members, 0
  {
    hide HoldEach, Holds;
    names, kids, inner := [], [], {};
    assert HoldEach(kids, ValuesOf(members[..0]), inner) by { HoldNone(); }
    for i := 0 to |members|
      invariant Named(members[..i], names) && HoldEach(kids, ValuesOf(members[..i]), inner) && fresh(inner)
    {
      var kid := DecodeJSONDocument(members[i].value);
      HoldOneMore(kids, ValuesOf(members[..i]), inner, kid, members[i].value);
      assert ValuesOf(members[..i + 1]) == ValuesOf(members[..i]) + [members[i].value];
      names, kids, inner := names + [members[i].name], kids + [kid], inner + Repr(kid);
    }
    assert members[..|members|] == members;
  }

  lemma HoldNone()
    ensures HoldEach([], [], {})
  {
  }

  /** Reads a document back. */
  method EncodeJSON(n: Node, ghost v: Json) returns (r: Json)
    requires Holds(n, v)
    ensures r == v
    decreases v
  {
    match n
    case Scalar(value) => r := value;
    case Items(slice) =>
      var items := [];
      for i := 0 to |slice.items|
        invariant items == v.items[..i]
      {
        var item := EncodeJSON(slice.items[i], v.items[i]);
        items := items + [item];
      }
      r := Array(items);
    case Members(dict) =>
      var members := [];
      for i := 0 to |dict.values|
        invariant members == v.members[..i]
      {
        var value := EncodeJSON(dict.values[i], v.members[i].value);
        members := members + [Member(dict.names[i], value)];
      }
      r := Object(members);
  }

  /** Where nothing is redacted, nothing changes. */
  lemma {:induction false} UnchangedIsSame(rules: Rules, path: seq<string>, v: Json)
    ensures !Redact(rules, path, v).1 ==> Redact(rules, path, v).0 == v
    decreases v, 0
  {
    match v
    case Array(items) => UnchangedItems(rules, path, items);
    case Object(members) => UnchangedMembers(rules, path, members);
    case _ =>
  }

  lemma {:induction false} UnchangedItems(rules: Rules, path: seq<string>, items: seq<Json>)
    ensures !RedactItems(rules, path, items).1 ==> RedactItems(rules, path, items).0 == items
    decreases items, 1
  {
    if items != [] {
      UnchangedItems(rules, path, items[..|items| - 1]);
      UnchangedIsSame(rules, path, items[|items| - 1]);
    }
  }

  lemma {:induction false} UnchangedMembers(rules: Rules, path: seq<string>, members: seq<Member>)
    ensures !RedactMembers(rules, path, members).1 ==> RedactMembers(rules, path, members).0 == members
    decreases members, 1
  {
    if members != [] {
      var member := members[|members| - 1];
      UnchangedMembers(rules, path, members[..|members| - 1]);
      UnchangedIsSame(rules, path + [member.name], member.value);
    }
  }

  /** Decode, redact in place, and encode again if anything changed. */
  method RedactSensitiveJSONScalars(rules: Rules, v: Json) returns (r: Json, changed: bool)
    ensures (r, changed) == Redact(rules, [], v)
  {
    hide Holds, Redact;
    var n := DecodeJSONDocument(v);
    var redacted;
    redacted, changed := RedactSensitiveJSONValue(rules, [], n, v);
    UnchangedIsSame(rules, [], v);
    if !changed { return v, false; }
    r := EncodeJSON(redacted, Redact(rules, [], v).0);
  }

  method ContainsSensitiveJSONValue(rules: Rules, path: seq<string>, v: Json) returns (found: bool)
    ensures found == Detects(rules, path, v)
    decreases v
  {
    match v
    case Array(items) =>
      for i := 0 to |items|
        invariant forall j | 0 <= j < i :: !Detects(rules, path, items[j])
      {
        var here := ContainsSensitiveJSONValue(rules, path, items[i]);
        if here { return true; }
      }
      found := false;
    case Object(members) =>
      for i := 0 to |members|
        invariant forall j | 0 <= j < i :: !Detects(rules, path + [members[j].name], members[j].value)
      {
        var here := ContainsSensitiveJSONValue(rules, path + [members[i].name], members[i].value);
        if here { return true; }
      }
      found := false;
    case _ => found := SensitivePath(rules, path) && Meaningful(rules, v);
  }

  method RegisterSensitiveJSONValue(rules: Rules, registry: set<string>, path: seq<string>, v: Json) returns (after: set<string>)
    ensures after == registry + Registered(rules, path, v)
    decreases v
  {
    after := registry;
    match v
    case Array(items) =>
      for i := 0 to |items|
        invariant after == registry + RegisteredItems(rules, path, items[..i])
      {
        assert items[..i + 1][..i] == items[..i];
        after := RegisterSensitiveJSONValue(rules, after, path, items[i]);
      }
      assert items[..|items|] == items;
    case Object(members) =>
      for i := 0 to |members|
        invariant after == registry + RegisteredMembers(rules, path, members[..i])
      {
        assert members[..i + 1][..i] == members[..i];
        after := RegisterSensitiveJSONValue(rules, after, path + [members[i].name], members[i].value);
      }
      assert members[..|members|] == members;
    case _ =>
      if SensitivePath(rules, path) && Redactable(v) { after := after + {TextOf(v)}; }
  }

  // ----- the plain list of scalars ------------------------------------------------------------

  datatype Leaf = Leaf(path: seq<string>, scalar: Json)

  function Leaves(path: seq<string>, v: Json): seq<Leaf>
    decreases v, 0
  {
    match v
    case Array(items) => ItemLeaves(path, items)
    case Object(members) => MemberLeaves(path, members)
    case _ => [Leaf(path, v)]
  }

  function ItemLeaves(path: seq<string>, items: seq<Json>): seq<Leaf>
    decreases items, 1
  {
    if items == [] then [] else ItemLeaves(path, items[..|items| - 1]) + Leaves(path, items[|items| - 1])
  }

  function MemberLeaves(path: seq<string>, members: seq<Member>): seq<Leaf>
    decreases members, 1
  {
    if members == [] then []
    else
      var last := members[|members| - 1];
      MemberLeaves(path, members[..|members| - 1]) + Leaves(path + [last.name], last.value)
  }

  predicate Hidden(rules: Rules, leaf: Leaf) {
    SensitivePath(rules, leaf.path) && Redactable(leaf.scalar)
  }

  function HideOne(rules: Rules, leaf: Leaf): Leaf {
    if Hidden(rules, leaf) then Leaf(leaf.path, Text(MARKER)) else leaf
  }

  function HideAll(rules: Rules, leaves: seq<Leaf>): (r: seq<Leaf>)
    ensures |r| == |leaves| && forall i | 0 <= i < |r| :: r[i] == HideOne(rules, leaves[i])
  {
    if leaves == [] then [] else HideAll(rules, leaves[..|leaves| - 1]) + [HideOne(rules, leaves[|leaves| - 1])]
  }

  lemma HideConcat(rules: Rules, a: seq<Leaf>, b: seq<Leaf>)
    ensures HideAll(rules, a + b) == HideAll(rules, a) + HideAll(rules, b)
  {
  }

  /** The same names, nesting and lengths. */
  predicate SameShape(v: Json, w: Json)
    decreases v
  {
    match v
    case Array(items) => w.Array? && |w.items| == |items| && forall i | 0 <= i < |items| :: SameShape(items[i], w.items[i])
    case Object(members) =>
      && w.Object? && |w.members| == |members|
      && forall i | 0 <= i < |members| ::
           members[i].name == w.members[i].name && SameShape(members[i].value, w.members[i].value)
    case _ => IsScalar(w)
  }

  // ----- main results --------------------------------------------------------------------------------

  predicate AnyHidden(rules: Rules, leaves: seq<Leaf>) {
    exists i | 0 <= i < |leaves| :: Hidden(rules, leaves[i])
  }

  lemma AnyHiddenConcat(rules: Rules, a: seq<Leaf>, b: seq<Leaf>)
    ensures AnyHidden(rules, a + b) <==> AnyHidden(rules, a) || AnyHidden(rules, b)
  {
    hide Hidden;
    if AnyHidden(rules, b) {
      var i :| 0 <= i < |b| && Hidden(rules, b[i]);
      assert (a + b)[|a| + i] == b[i];
    }
    if AnyHidden(rules, a) {
      var i :| 0 <= i < |a| && Hidden(rules, a[i]);
      assert (a + b)[i] == a[i];
    }
  }

  /** Redaction replaces exactly the redactable scalars below a sensitive name, by the marker;
      every other scalar stays where it is. It reports a change exactly when there is one. */
  lemma {:induction false} RedactsExactly(rules: Rules, path: seq<string>, v: Json)
    ensures var r := Redact(rules, path, v);
            && Leaves(path, r.0) == HideAll(rules, Leaves(path, v))
            && (r.1 <==> AnyHidden(rules, Leaves(path, v)))
    decreases v, 0
  {
    hide RedactItems, ItemLeaves, RedactMembers, MemberLeaves, HideAll, AnyHidden, SensitivePath, Redactable;
    match v
    case Array(items) => RedactsItems(rules, path, items);
    case Object(members) => RedactsMembers(rules, path, members);
    case _ =>
      assert Leaves(path, v) == [Leaf(path, v)];
      OneLeaf(rules, Leaf(path, v));
  }

  lemma OneLeaf(rules: Rules, leaf: Leaf)
    ensures HideAll(rules, [leaf]) == [HideOne(rules, leaf)]
    ensures AnyHidden(rules, [leaf]) <==> Hidden(rules, leaf)
  {
    assert [leaf][0] == leaf && [leaf][..0] == [];
  }

  lemma {:induction false} RedactsItems(rules: Rules, path: seq<string>, items: seq<Json>)
    ensures var r := RedactItems(rules, path, items);
            && ItemLeaves(path, r.0) == HideAll(rules, ItemLeaves(path, items))
            && (r.1 <==> AnyHidden(rules, ItemLeaves(path, items)))
    decreases items, 1
  {
    hide HideAll, AnyHidden, Redact, Leaves;
    if items == [] {
      assert HideAll(rules, []) == [];
      assert !AnyHidden(rules, []) by { NoneHidden(rules); }
    } else {
      var init, last := items[..|items| - 1], items[|items| - 1];
      RedactsItems(rules, path, init);
      RedactsExactly(rules, path, last);
      var r := RedactItems(rules, path, items);
      assert r.0[..|items| - 1] == RedactItems(rules, path, init).0;
      HideConcat(rules, ItemLeaves(path, init), Leaves(path, last));
      AnyHiddenConcat(rules, ItemLeaves(path, init), Leaves(path, last));
    }
  }

  lemma NoneHidden(rules: Rules)
    ensures !AnyHidden(rules, [])
  {
  }

  lemma {:induction false} RedactsMembers(rules: Rules, path: seq<string>, members: seq<Member>)
    ensures var r := RedactMembers(rules, path, members);
            && MemberLeaves(path, r.0) == HideAll(rules, MemberLeaves(path, members))
            && (r.1 <==> AnyHidden(rules, MemberLeaves(path, members)))
    decreases members, 1
  {
    hide HideAll, AnyHidden, Redact, Leaves;
    if members == [] {
      assert HideAll(rules, []) == [];
      assert !AnyHidden(rules, []) by { NoneHidden(rules); }
    } else {
      var init, last := members[..|members| - 1], members[|members| - 1];
      RedactsMembers(rules, path, init);
      RedactsExactly(rules, path + [last.name], last.value);
      var r := RedactMembers(rules, path, members);
      assert r.0[..|members| - 1] == RedactMembers(rules, path, init).0;
      HideConcat(rules, MemberLeaves(path, init), Leaves(path + [last.name], last.value));
      AnyHiddenConcat(rules, MemberLeaves(path, init), Leaves(path + [last.name], last.value));
    }
  }

  /** And the document keeps its shape. */
  lemma {:induction false} RedactKeepsShape(rules: Rules, path: seq<string>, v: Json)
    ensures SameShape(v, Redact(rules, path, v).0)
    decreases v
  {
    match v
    case Array(items) =>
      RedactItemsAt(rules, path, items);
      forall i | 0 <= i < |items| ensures SameShape(items[i], RedactItems(rules, path, items).0[i]) {
        RedactKeepsShape(rules, path, items[i]);
      }
    case Object(members) =>
      RedactMembersAt(rules, path, members);
      forall i | 0 <= i < |members| ensures SameShape(members[i].value, RedactMembers(rules, path, members).0[i].value) {
        RedactKeepsShape(rules, path + [members[i].name], members[i].value);
      }
    case _ =>
  }

  /** Detection says yes exactly when some scalar below a sensitive name is meaningful. */
  lemma {:induction false} DetectsIff(rules: Rules, path: seq<string>, v: Json)
    ensures Detects(rules, path, v) <==>
            exists leaf | leaf in Leaves(path, v) :: SensitivePath(rules, leaf.path) && Meaningful(rules, leaf.scalar)
    decreases v
  {
    match v
    case Array(items) =>
      ItemLeavesContents(path, items);
      forall i | 0 <= i < |items|
        ensures Detects(rules, path, items[i]) <==>
                exists leaf | leaf in Leaves(path, items[i]) :: SensitivePath(rules, leaf.path) && Meaningful(rules, leaf.scalar)
      {
        DetectsIff(rules, path, items[i]);
      }
    case Object(members) =>
      MemberLeavesContents(path, members);
      forall i | 0 <= i < |members|
        ensures Detects(rules, path + [members[i].name], members[i].value) <==>
                exists leaf | leaf in Leaves(path + [members[i].name], members[i].value) ::
                  SensitivePath(rules, leaf.path) && Meaningful(rules, leaf.scalar)
      {
        DetectsIff(rules, path + [members[i].name], members[i].value);
      }
    case _ => assert Leaf(path, v) in Leaves(path, v);
  }

  lemma {:induction false} ItemLeavesContents(path: seq<string>, items: seq<Json>)
    ensures forall leaf :: leaf in ItemLeaves(path, items) <==>
                           exists i | 0 <= i < |items| :: leaf in Leaves(path, items[i])
  {
    if items != [] {
      var init := items[..|items| - 1];
      ItemLeavesContents(path, init);
      assert forall i | 0 <= i < |init| :: init[i] == items[i];
    }
  }

  lemma {:induction false} MemberLeavesContents(path: seq<string>, members: seq<Member>)
    ensures forall leaf :: leaf in MemberLeaves(path, members) <==>
                           exists i | 0 <= i < |members| :: leaf in Leaves(path + [members[i].name], members[i].value)
  {
    if members != [] {
      var init := members[..|members| - 1];
      MemberLeavesContents(path, init);
      assert forall i | 0 <= i < |init| :: init[i] == members[i];
    }
  }

  function HiddenTexts(rules: Rules, leaves: seq<Leaf>): set<string> {
    set i | 0 <= i < |leaves| && Hidden(rules, leaves[i]) :: TextOf(leaves[i].scalar)
  }

  lemma HiddenTextsConcat(rules: Rules, a: seq<Leaf>, b: seq<Leaf>)
    ensures HiddenTexts(rules, a + b) == HiddenTexts(rules, a) + HiddenTexts(rules, b)
  {
    hide Hidden, TextOf;
    forall s | s in HiddenTexts(rules, a) + HiddenTexts(rules, b) ensures s in HiddenTexts(rules, a + b) {
      if s in HiddenTexts(rules, a) {
        var i :| 0 <= i < |a| && Hidden(rules, a[i]) && s == TextOf(a[i].scalar);
        assert (a + b)[i] == a[i];
      } else {
        var i :| 0 <= i < |b| && Hidden(rules, b[i]) && s == TextOf(b[i].scalar);
        assert (a + b)[|a| + i] == b[i];
      }
    }
  }

  /** Exactly the texts that redaction removes are registered. */
  lemma {:induction false} RegistersExactly(rules: Rules, path: seq<string>, v: Json)
    ensures Registered(rules, path, v) == HiddenTexts(rules, Leaves(path, v))
    decreases v, 0
  {
    match v
    case Array(items) => RegistersItems(rules, path, items);
    case Object(members) => RegistersMembers(rules, path, members);
    case _ => assert Leaves(path, v)[0] == Leaf(path, v);
  }

  lemma {:induction false} RegistersItems(rules: Rules, path: seq<string>, items: seq<Json>)
    ensures RegisteredItems(rules, path, items) == HiddenTexts(rules, ItemLeaves(path, items))
    decreases items, 1
  {
    if items != [] {
      var init, last := items[..|items| - 1], items[|items| - 1];
      RegistersItems(rules, path, init);
      RegistersExactly(rules, path, last);
      HiddenTextsConcat(rules, ItemLeaves(path, init), Leaves(path, last));
    }
  }

  lemma {:induction false} RegistersMembers(rules: Rules, path: seq<string>, members: seq<Member>)
    ensures RegisteredMembers(rules, path, members) == HiddenTexts(rules, MemberLeaves(path, members))
    decreases members, 1
  {
    if members != [] {
      var init, last := members[..|members| - 1], members[|members| - 1];
      RegistersMembers(rules, path, init);
      RegistersExactly(rules, path + [last.name], last.value);
      HiddenTextsConcat(rules, MemberLeaves(path, init), Leaves(path + [last.name], last.value));
    }
  }

  /** After redaction every scalar below a sensitive name is the marker or null. */
  lemma NothingSensitiveIsLeft(rules: Rules, path: seq<string>, v: Json, leaf: Leaf)
    requires leaf in Leaves(path, Redact(rules, path, v).0) && SensitivePath(rules, leaf.path)
    ensures leaf.scalar == Text(MARKER) || !Redactable(leaf.scalar)
  {
    RedactsExactly(rules, path, v);
  }

  /** Redacting again changes no value, but still reports a change. */
  lemma {:induction false} RedactTwice(rules: Rules, path: seq<string>, v: Json)
    ensures Redact(rules, path, Redact(rules, path, v).0) == Redact(rules, path, v)
    decreases v, 0
  {
    match v
    case Array(items) => RedactItemsTwice(rules, path, items);
    case Object(members) => RedactMembersTwice(rules, path, members);
    case _ =>
  }

  lemma {:induction false} RedactItemsTwice(rules: Rules, path: seq<string>, items: seq<Json>)
    ensures RedactItems(rules, path, RedactItems(rules, path, items).0) == RedactItems(rules, path, items)
    decreases items, 1
  {
    if items != [] {
      RedactItemsTwice(rules, path, items[..|items| - 1]);
      RedactTwice(rules, path, items[|items| - 1]);
      var r := RedactItems(rules, path, items).0;
      assert r[..|items| - 1] == RedactItems(rules, path, items[..|items| - 1]).0;
    }
  }

  lemma {:induction false} RedactMembersTwice(rules: Rules, path: seq<string>, members: seq<Member>)
    ensures RedactMembers(rules, path, RedactMembers(rules, path, members).0) == RedactMembers(rules, path, members)
    decreases members, 1
  {
    if members != [] {
      var member := members[|members| - 1];
      RedactMembersTwice(rules, path, members[..|members| - 1]);
      RedactTwice(rules, path + [member.name], member.value);
      var r := RedactMembers(rules, path, members).0;
      assert r[..|members| - 1] == RedactMembers(rules, path, members[..|members| - 1]).0;
    }
  }

  /** Whatever detection finds, redaction changes. The redacted document, though, is still
      detected exactly when anything was redacted: the marker itself is meaningful. */
  lemma DetectionAndRedaction(rules: Rules, path: seq<string>, v: Json)
    requires rules.trim(MARKER) == MARKER
    ensures Detects(rules, path, v) ==> Redact(rules, path, v).1
    ensures Detects(rules, path, Redact(rules, path, v).0) <==> Redact(rules, path, v).1
  {
    var r := Redact(rules, path, v);
    var before, after := Leaves(path, v), Leaves(path, r.0);
    RedactsExactly(rules, path, v);
    DetectsIff(rules, path, v);
    DetectsIff(rules, path, r.0);
    hide Redact, Detects, Leaves, SensitivePath, HideAll;
    if Detects(rules, path, v) {
      var leaf :| leaf in before && SensitivePath(rules, leaf.path) && Meaningful(rules, leaf.scalar);
      var i :| 0 <= i < |before| && before[i] == leaf;
      assert Hidden(rules, before[i]);
    }
    if Detects(rules, path, r.0) {
      var leaf :| leaf in after && SensitivePath(rules, leaf.path) && Meaningful(rules, leaf.scalar);
      var i :| 0 <= i < |after| && after[i] == leaf;
      assert after[i] == HideOne(rules, before[i]);
      assert Hidden(rules, before[i]);
    }
    if r.1 {
      var i :| 0 <= i < |before| && Hidden(rules, before[i]);
      assert after[i] == HideOne(rules, before[i]) && after[i] in after;
      assert |MARKER| > 8;
    }
  }

  // ----- told from names and values alone -----------------------------------------------------------

  /** A name on the way to the scalar is sensitive. */
  ghost predicate Below(rules: Rules, leaf: Leaf) {
    exists name :: name in leaf.path && rules.sensitive(name)
  }

  lemma BelowIsSensitive(rules: Rules, leaf: Leaf)
    ensures Below(rules, leaf) <==> SensitivePath(rules, leaf.path)
  {
    if SensitivePath(rules, leaf.path) {
      var i :| 0 <= i < |leaf.path| && rules.sensitive(leaf.path[i]);
      assert leaf.path[i] in leaf.path;
    }
  }

  /** The text under which a scalar is known, for the kinds that are redacted. */
  function Known(v: Json): (r: set<string>)
    ensures r != {} <==> v.Text? || v.Number? || v.Bool?
  {
    match v
    case Text(text) => {text}
    case Number(text) => {text}
    case Bool(true) => {"true"}
    case Bool(false) => {"false"}
    case _ => {}
  }

  /** Redaction of a whole document, scalar by scalar in place: below a sensitive name every
      string, number and boolean becomes the marker, and nothing else changes. */
  lemma RedactionVerdict(rules: Rules, v: Json)
    ensures var r := Redact(rules, [], v); var before, after := Leaves([], v), Leaves([], r.0);
            && |after| == |before|
            && (forall i | 0 <= i < |before| ::
                  && after[i].path == before[i].path
                  && after[i].scalar == if Below(rules, before[i]) && Known(before[i].scalar) != {}
                                        then Text("[REDACTED:secret]") else before[i].scalar)
            && (r.1 <==> exists i | 0 <= i < |before| :: Below(rules, before[i]) && Known(before[i].scalar) != {})
  {
    RedactsExactly(rules, [], v);
    var before := Leaves([], v);
    hide Redact, Leaves, SensitivePath, Below, HideAll;
    forall i | 0 <= i < |before| ensures Hidden(rules, before[i]) <==> Below(rules, before[i]) && Known(before[i].scalar) != {} {
      BelowIsSensitive(rules, before[i]);
    }
  }

  /** Detection looks for a boolean, a number or a longer string below a sensitive name. */
  lemma DetectionVerdict(rules: Rules, v: Json)
    ensures Detects(rules, [], v) <==>
            exists leaf | leaf in Leaves([], v) ::
              Below(rules, leaf) && match leaf.scalar
                case Text(text) => |rules.trim(text)| > 8
                case Number(text) => |rules.trim(text)| > 0
                case Bool(_) => true
                case _ => false
  {
    DetectsIff(rules, [], v);
    hide Detects, Leaves, SensitivePath, Below;
    forall leaf | leaf in Leaves([], v) ensures Below(rules, leaf) <==> SensitivePath(rules, leaf.path) {
      BelowIsSensitive(rules, leaf);
    }
  }

  /** What is registered are the texts that redaction takes out. */
  lemma RegistrationVerdict(rules: Rules, v: Json, text: string)
    ensures text in Registered(rules, [], v) <==>
            exists leaf | leaf in Leaves([], v) :: Below(rules, leaf) && text in Known(leaf.scalar)
  {
    RegistersExactly(rules, [], v);
    var leaves := Leaves([], v);
    hide Registered, Leaves, SensitivePath, Below;
    forall leaf | leaf in leaves ensures Below(rules, leaf) <==> SensitivePath(rules, leaf.path) { BelowIsSensitive(rules, leaf); }
    if text in HiddenTexts(rules, leaves) {
      var i :| 0 <= i < |leaves| && Hidden(rules, leaves[i]) && text == TextOf(leaves[i].scalar);
      assert leaves[i] in leaves && text in Known(leaves[i].scalar);
    }
    if leaf :| leaf in leaves && Below(rules, leaf) && text in Known(leaf.scalar) {
      var i :| 0 <= i < |leaves| && leaves[i] == leaf;
      assert Hidden(rules, leaves[i]) && text == TextOf(leaves[i].scalar);
    }
  }
}
