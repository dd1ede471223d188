/**
 * The query-item expander: one key and one value become a flat, ordered list
 * of (name, value) pairs, and a dictionary becomes the concatenation of the
 * expansions of its keys in ascending key order.
 */
module QueryExpansion {
  import opened Options
  import opened KeyOrder
  import opened Decimal
  import opened Flattening

  /** A query item before percent-encoding. */
  datatype Item = Item(name: string, value: string)

  /**
   * The value shapes the expander accepts, in place of Swift's dynamic casts
   * on `Any`. A `Double` is carried as the text `String(d)` renders for it;
   * `Unsupported` stands for every other runtime type.
   */
  datatype Value =
    | Text(text: string)
    | Flag(flag: bool)
    | Integer(integer: int)
    | Real(rendered: string)
    | TextList(texts: seq<string>)
    | TextMap(textMap: map<string, string>)
    | ListMap(listMap: map<string, seq<string>>)
    | Unsupported

  /**
   * The values `queryItemsFrom(key:value:)` expands without tripping its
   * assertion: every supported shape except an empty list, an empty
   * dictionary, and a dictionary of lists holding an empty list.
   */
  predicate Expandable(v: Value)
  {
    match v
    case TextList(xs) => xs != []
    case TextMap(m) => m != map[]
    case ListMap(m) => m != map[] && forall k :: k in m ==> m[k] != []
    case Unsupported => false
    case _ => true
  }

  /** The name of list element `i`: `key[i]`. */
  function Indexed(key: string, i: nat): string
  {
    key + "[" + NatToDecimal(i) + "]"
  }

  /** The name of the entry for nested key `nested`: `key[nested]`. */
  function Nested(key: string, nested: string): string
  {
    key + "[" + nested + "]"
  }

  /** Nesting depth of a value; the expander recurses only into shallower values. */
  function Rank(v: Value): nat
  {
    match v
    case TextList(_) => 1
    case TextMap(_) => 2
    case ListMap(_) => 2
    case _ => 0
  }

  /** The assertion that an expansion produced at least one item. */
  function NonEmpty(r: Option<seq<Item>>): Option<seq<Item>>
  {
    if r.Some? && |r.value| == 0 then None else r
  }

  /**
   * The items `queryItemsFrom(key:value:)` returns, or None where it (or a
   * call it makes) asserts that no item was produced.
   */
  ghost function ExpandValue(key: string, v: Value): Option<seq<Item>>
    decreases Rank(v), 2
  {
    match v
    case Text(s) => Some([Item(key, s)])
    case Flag(b) => Some([Item(key, if b then "1" else "0")])
    case Integer(n) => Some([Item(key, IntToDecimal(n))])
    case Real(rendered) => Some([Item(key, rendered)])
    case TextList(xs) => ExpandList(key, xs)
    case TextMap(m) => ExpandTextMap(key, m)
    case ListMap(m) => ExpandListMap(key, m)
    case Unsupported => None // no cast matched: the item list stays empty
  }

  /** The `[String]` branch: the element expansions joined, asserting on no items. */
  ghost function ExpandList(key: string, xs: seq<string>): Option<seq<Item>>
    decreases 1, 1
  {
    NonEmpty(Concat(ListParts(key, xs)))
  }

  /** The `[String: String]` branch: the entry expansions joined, asserting on no items. */
  ghost function ExpandTextMap(key: string, m: map<string, string>): Option<seq<Item>>
    decreases 2, 1
  {
    NonEmpty(Concat(TextMapParts(key, m)))
  }

  /** The `[String: [String]]` branch: the entry expansions joined, asserting on no items. */
  ghost function ExpandListMap(key: string, m: map<string, seq<string>>): Option<seq<Item>>
    decreases 2, 1
  {
    NonEmpty(Concat(ListMapParts(key, m)))
  }

  /** The expansion of each list element, in list order. */
  ghost function ListParts(key: string, xs: seq<string>): seq<Option<seq<Item>>>
    decreases 1, 0
  {
    seq(|xs|, i requires 0 <= i < |xs| => ExpandValue(Indexed(key, i), Text(xs[i])))
  }

  /** The expansion of each entry of a `[String: String]`, in ascending key order. */
  ghost function TextMapParts(key: string, m: map<string, string>): seq<Option<seq<Item>>>
    decreases 2, 0
  {
    var keys := SortedKeys(m.Keys);
    seq(|keys|, j requires 0 <= j < |keys| => ExpandValue(Nested(key, keys[j]), Text(m[keys[j]])))
  }

  /** The expansion of each entry of a `[String: [String]]`, in ascending key order. */
  ghost function ListMapParts(key: string, m: map<string, seq<string>>): seq<Option<seq<Item>>>
    decreases 2, 0
  {
    var keys := SortedKeys(m.Keys);
    seq(|keys|, j requires 0 <= j < |keys| => ExpandValue(Nested(key, keys[j]), TextList(m[keys[j]])))
  }

  /** The expansion of each top-level entry, in ascending key order. */
  ghost function TopLevelParts(items: map<string, Value>): seq<Option<seq<Item>>>
  {
    var keys := SortedKeys(items.Keys);
    seq(|keys|, j requires 0 <= j < |keys| => ExpandValue(keys[j], items[keys[j]]))
  }

  /** Entry `j` of a `[String: String]` in key order. */
  lemma TextMapPart(key: string, m: map<string, string>, keys: seq<string>, j: nat)
    requires keys == SortedKeys(m.Keys) && j < |keys|
    ensures TextMapParts(key, m)[j] == ExpandValue(Nested(key, keys[j]), Text(m[keys[j]]))
  {
  }

  /** Entry `j` of a `[String: [String]]` in key order. */
  lemma ListMapPart(key: string, m: map<string, seq<string>>, keys: seq<string>, j: nat)
    requires keys == SortedKeys(m.Keys) && j < |keys|
    ensures ListMapParts(key, m)[j] == ExpandValue(Nested(key, keys[j]), TextList(m[keys[j]]))
  {
  }

  /** Top-level entry `j` in key order. */
  lemma TopLevelPart(items: map<string, Value>, keys: seq<string>, j: nat)
    requires keys == SortedKeys(items.Keys) && j < |keys|
    ensures TopLevelParts(items)[j] == ExpandValue(keys[j], items[keys[j]])
  {
  }

  /** The items one `addQuery` call adds, or None where an expansion asserts. */
  ghost function ExpandAll(items: map<string, Value>): Option<seq<Item>>
  {
    Concat(TopLevelParts(items))
  }

  /** `queryItemsFrom(key:value:)`: expands one value, recursing into its elements. */
  method QueryItemsFrom(key: string, value: Value) returns (r: Option<seq<Item>>)
    ensures r == ExpandValue(key, value)
    decreases Rank(value), 2
  {
    var queryItems: seq<Item> := [];
    match value {
      case Text(s) =>
        queryItems := [Item(key, s)];
      case Flag(b) =>
        queryItems := [Item(key, if b then "1" else "0")];
      case Integer(n) =>
        queryItems := [Item(key, IntToDecimal(n))];
      case Real(rendered) =>
        queryItems := [Item(key, rendered)];
      case TextList(xs) =>
        queryItems := ListItemsFrom(key, xs);
      case TextMap(m) =>
        queryItems := TextMapItemsFrom(key, m);
      case ListMap(m) =>
        var nested := ListMapItemsFrom(key, m);
        if nested.None? {
          // a nested call asserted on an empty list
          return None;
        }
        queryItems := nested.value;
      case Unsupported =>
    }
    if queryItems == [] {
      // assert(!queryItems.isEmpty, "An unsupported type was found in 'value'")
      return None;
    }
    r := Some(queryItems);
  }

  /** The `[String]` branch: `key[0]`, `key[1]`, ... in list order. */
  method ListItemsFrom(key: string, xs: seq<string>) returns (queryItems: seq<Item>)
    ensures Concat(ListParts(key, xs)) == Some(queryItems)
    decreases 1, 0
  {
    queryItems := [];
    ghost var parts := ListParts(key, xs);
    var iteration := 0;
    while iteration < |xs|
      invariant 0 <= iteration <= |xs|
      invariant Concat(parts[..iteration]) == Some(queryItems)
    {
      var nested := QueryItemsFrom(Indexed(key, iteration), Text(xs[iteration]));
      assert parts[iteration] == nested;
      ConcatStep(parts, iteration, queryItems);
      queryItems := queryItems + nested.value;
      iteration := iteration + 1;
    }
    assert parts[..|xs|] == parts;
  }

  /** The `[String: String]` branch: `key[nestedKey]` in ascending nested-key order. */
  method TextMapItemsFrom(key: string, m: map<string, string>) returns (queryItems: seq<Item>)
    ensures Concat(TextMapParts(key, m)) == Some(queryItems)
    decreases 2, 0
  {
    queryItems := [];
    var keys := SortedKeysOf(m.Keys);
    ghost var parts := TextMapParts(key, m);
    var j := 0;
    while j < |keys|
      invariant 0 <= j <= |keys|
      invariant Concat(parts[..j]) == Some(queryItems)
    {
      var nested := QueryItemsFrom(Nested(key, keys[j]), Text(m[keys[j]]));
      TextMapPart(key, m, keys, j);
      ConcatStep(parts, j, queryItems);
      queryItems := queryItems + nested.value;
      j := j + 1;
    }
    assert parts[..|keys|] == parts;
  }

  /**
   * The `[String: [String]]` branch: `key[nestedKey][i]` in ascending
   * nested-key order, then list order; None when a nested list is empty.
   */
  method ListMapItemsFrom(key: string, m: map<string, seq<string>>) returns (r: Option<seq<Item>>)
    ensures r == Concat(ListMapParts(key, m))
    decreases 2, 0
  {
    var queryItems: seq<Item> := [];
    var keys := SortedKeysOf(m.Keys);
    ghost var parts := ListMapParts(key, m);
    var j := 0;
    while j < |keys|
      invariant 0 <= j <= |keys|
      invariant Concat(parts[..j]) == Some(queryItems)
    {
      var nested := QueryItemsFrom(Nested(key, keys[j]), TextList(m[keys[j]]));
      ListMapPart(key, m, keys, j);
      ConcatNext(parts, j, queryItems, nested);
      if nested.None? {
        return None;
      }
      queryItems := queryItems + nested.value;
      j := j + 1;
    }
    assert parts[..|keys|] == parts;
    r := Some(queryItems);
  }

  /**
   * The loop of `URLComponents.addQuery(_:)`: the expansions of the top-level
   * keys, in ascending key order, joined.
   */
  method ExpandItems(items: map<string, Value>) returns (r: Option<seq<Item>>)
    ensures r == ExpandAll(items)
  {
    var queryItems: seq<Item> := [];
    var keys := SortedKeysOf(items.Keys);
    ghost var parts := TopLevelParts(items);
    var j := 0;
    while j < |keys|
      invariant 0 <= j <= |keys|
      invariant Concat(parts[..j]) == Some(queryItems)
    {
      var expanded := QueryItemsFrom(keys[j], items[keys[j]]);
      TopLevelPart(items, keys, j);
      ConcatNext(parts, j, queryItems, expanded);
      if expanded.None? {
        return None;
      }
      queryItems := queryItems + expanded.value;
      j := j + 1;
    }
    assert parts[..|keys|] == parts;
    r := Some(queryItems);
  }
}
