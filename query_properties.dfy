/**
 * What the expansion means, shape by shape, and the order in which one
 * `addQuery` call emits its items.
 */
module QueryProperties {
  import opened Options
  import opened KeyOrder
  import opened Decimal
  import opened Flattening
  import opened QueryExpansion

  /** `name` is `key` itself or `key` followed by a bracketed suffix. */
  ghost predicate NamedUnder(name: string, key: string)
  {
    |key| <= |name| && name[..|key|] == key && (|name| > |key| ==> name[|key|] == '[')
  }

  /**
   * A String, Bool, Int or Double yields exactly one item named `key`: the
   * text itself, "1" for true and "0" for false and nothing else, the decimal
   * numeral of the integer (which reads back as that integer), the rendered
   * Double.
   */
  lemma LeafExpansion(key: string, v: Value)
    requires v.Text? || v.Flag? || v.Integer? || v.Real?
    ensures ExpandValue(key, v).Some?
    ensures var items := ExpandValue(key, v).value;
      && |items| == 1 && items[0].name == key
      && (v.Text? ==> items[0].value == v.text)
      && (v.Flag? ==> (items[0].value == "1" <==> v.flag) && (items[0].value == "0" <==> !v.flag))
      && (v.Integer? ==> items[0].value == IntToDecimal(v.integer) && ParseInt(items[0].value) == Some(v.integer))
      && (v.Real? ==> items[0].value == v.rendered)
  {
    if v.Integer? {
      IntToDecimalRoundTrip(v.integer);
    }
  }

  /**
   * A list of n strings yields exactly n items, the i-th named `key[i]` with
   * the i-th string as value: list order, no sorting. The empty list asserts.
   */
  lemma ListExpansion(key: string, xs: seq<string>)
    ensures ExpandValue(key, TextList(xs)).Some? <==> xs != []
    ensures ExpandValue(key, TextList(xs)).Some? ==>
      var items := ExpandValue(key, TextList(xs)).value;
      |items| == |xs| && forall i :: 0 <= i < |xs| ==> items[i] == Item(Indexed(key, i), xs[i])
  {
    var parts := ListParts(key, xs);
    var blocks: seq<seq<Item>> := Values(parts);
    forall i | 0 <= i < |xs|
      ensures parts[i] == Some([Item(Indexed(key, i), xs[i])])
      ensures blocks[i] == [Item(Indexed(key, i), xs[i])]
    {
      assert parts[i] == ExpandValue(Indexed(key, i), Text(xs[i]));
    }
    ConcatFlatten(parts);
    FlattenSingletons(blocks);
    assert ExpandValue(key, TextList(xs)) == NonEmpty(Concat(parts));
  }

  /** Two list elements never share a name. */
  lemma IndexedNamesDistinct(key: string, i: nat, j: nat)
    requires i != j
    ensures Indexed(key, i) != Indexed(key, j)
  {
    var a, b := NatToDecimal(i), NatToDecimal(j);
    if Indexed(key, i) == Indexed(key, j) {
      assert |a| == |b|;
      assert a == Indexed(key, i)[|key| + 1..|key| + 1 + |a|];
      assert b == Indexed(key, j)[|key| + 1..|key| + 1 + |b|];
      NatToDecimalInjective(i, j);
    }
  }

  /**
   * A `[String: String]` yields one item per entry, named `key[nestedKey]`,
   * in ascending nested-key order. The empty dictionary asserts.
   */
  lemma TextMapExpansion(key: string, m: map<string, string>)
    ensures ExpandValue(key, TextMap(m)).Some? <==> m != map[]
    ensures ExpandValue(key, TextMap(m)).Some? ==>
      var keys := SortedKeys(m.Keys);
      var items := ExpandValue(key, TextMap(m)).value;
      && StrictlyAscending(keys)
      && |items| == |keys| == |m|
      && forall j :: 0 <= j < |keys| ==> items[j] == Item(Nested(key, keys[j]), m[keys[j]])
  {
    TextMapConcat(key, m);
    TextMapUnfold(key, m);
    SortedKeysAscending(m.Keys);
    SortedKeysComplete(m.Keys);
    if m != map[] {
      var k :| k in m;
      assert k in SortedKeys(m.Keys);
    }
  }

  lemma TextMapUnfold(key: string, m: map<string, string>)
    ensures ExpandValue(key, TextMap(m)) == NonEmpty(Concat(TextMapParts(key, m)))
  {
  }

  /** The join of the per-entry expansions of a `[String: String]`: one item per key. */
  lemma TextMapConcat(key: string, m: map<string, string>)
    ensures Concat(TextMapParts(key, m)).Some?
    ensures var keys := SortedKeys(m.Keys);
      var items := Concat(TextMapParts(key, m)).value;
      && |items| == |keys|
      && forall j :: 0 <= j < |keys| ==> items[j] == Item(Nested(key, keys[j]), m[keys[j]])
  {
    var keys := SortedKeys(m.Keys);
    var parts := TextMapParts(key, m);
    var blocks: seq<seq<Item>> := Values(parts);
    forall j | 0 <= j < |keys|
      ensures parts[j] == Some([Item(Nested(key, keys[j]), m[keys[j]])])
      ensures blocks[j] == [Item(Nested(key, keys[j]), m[keys[j]])]
    {
      TextMapPartAt(key, m, j);
    }
    ConcatFlatten(parts);
    FlattenSingletons(blocks);
  }

  /** One entry of a `[String: String]`: the single item `key[nestedKey]`. */
  lemma TextMapPartAt(key: string, m: map<string, string>, j: nat)
    requires j < |SortedKeys(m.Keys)|
    ensures var keys := SortedKeys(m.Keys);
      TextMapParts(key, m)[j] == Some([Item(Nested(key, keys[j]), m[keys[j]])])
  {
    var keys := SortedKeys(m.Keys);
    assert TextMapParts(key, m)[j] == ExpandValue(Nested(key, keys[j]), Text(m[keys[j]]));
  }

  /**
   * The blocks of a dictionary of lists: block j holds, for the j-th nested
   * key, the items `key[nestedKey][i]` of its list in list order.
   */
  ghost predicate ListMapShaped(key: string, m: map<string, seq<string>>, keys: seq<string>, blocks: seq<seq<Item>>)
  {
    && |blocks| == |keys|
    && (forall j :: 0 <= j < |keys| ==> keys[j] in m && |blocks[j]| == |m[keys[j]]|)
    && (forall j, i :: 0 <= j < |keys| && 0 <= i < |blocks[j]| ==>
          keys[j] in m && i < |m[keys[j]]| && blocks[j][i] == Item(Indexed(Nested(key, keys[j]), i), m[keys[j]][i]))
  }

  /**
   * A `[String: [String]]` yields, for each nested key in ascending order, the
   * items `key[nestedKey][i]` of its list in list order, one block after the
   * other. It asserts when the dictionary or any of its lists is empty.
   */
  lemma ListMapExpansion(key: string, m: map<string, seq<string>>)
    ensures ExpandValue(key, ListMap(m)).Some? ==>
      var keys := SortedKeys(m.Keys);
      var blocks: seq<seq<Item>> := Values(ListMapParts(key, m));
      && StrictlyAscending(keys)
      && ExpandValue(key, ListMap(m)).value == Flatten(blocks)
      && ListMapShaped(key, m, keys, blocks)
  {
    ListMapConcat(key, m);
    ListMapUnfold(key, m);
    SortedKeysAscending(m.Keys);
  }

  /** A dictionary of lists asserts exactly when it or one of its lists is empty. */
  lemma ListMapFails(key: string, m: map<string, seq<string>>)
    ensures ExpandValue(key, ListMap(m)).Some? <==> m != map[] && forall k :: k in m ==> m[k] != []
  {
    ListMapConcat(key, m);
    ListMapUnfold(key, m);
    if Concat(ListMapParts(key, m)).Some? {
      ListMapNonEmpty(key, m);
    }
  }

  lemma ListMapUnfold(key: string, m: map<string, seq<string>>)
    ensures ExpandValue(key, ListMap(m)) == NonEmpty(Concat(ListMapParts(key, m)))
  {
  }

  lemma ListMapNonEmpty(key: string, m: map<string, seq<string>>)
    requires Concat(ListMapParts(key, m)).Some?
    ensures |Concat(ListMapParts(key, m)).value| == 0 <==> m == map[]
  {
    var keys := SortedKeys(m.Keys);
    var blocks: seq<seq<Item>> := Values(ListMapParts(key, m));
    ListMapConcat(key, m);
    SortedKeysComplete(m.Keys);
    if m == map[] {
      assert m.Keys == {};
    } else {
      var k :| k in m;
      assert k in keys;
      var j :| 0 <= j < |keys| && keys[j] == k;
      BlockAt(blocks, j);
    }
  }

  /** The join of the per-entry expansions of a dictionary of lists. */
  lemma ListMapConcat(key: string, m: map<string, seq<string>>)
    ensures Concat(ListMapParts(key, m)).Some? <==> forall k :: k in m ==> m[k] != []
    ensures Concat(ListMapParts(key, m)).Some? ==>
      var blocks: seq<seq<Item>> := Values(ListMapParts(key, m));
      && Concat(ListMapParts(key, m)).value == Flatten(blocks)
      && ListMapShaped(key, m, SortedKeys(m.Keys), blocks)
  {
    var keys := SortedKeys(m.Keys);
    var parts := ListMapParts(key, m);
    var blocks: seq<seq<Item>> := Values(parts);
    forall j | 0 <= j < |keys|
      ensures parts[j].Some? <==> m[keys[j]] != []
      ensures parts[j].Some? ==> |blocks[j]| == |m[keys[j]]|
      ensures parts[j].Some? ==> forall i :: 0 <= i < |m[keys[j]]| ==>
        blocks[j][i] == Item(Indexed(Nested(key, keys[j]), i), m[keys[j]][i])
    {
      ListMapPartAt(key, m, j);
    }
    ConcatFlatten(parts);
    ListMapAllSome(m, keys, parts);
    if Concat(parts).Some? {
      forall j | 0 <= j < |keys|
        ensures |blocks[j]| == |m[keys[j]]|
        ensures forall i :: 0 <= i < |m[keys[j]]| ==>
          blocks[j][i] == Item(Indexed(Nested(key, keys[j]), i), m[keys[j]][i])
      {
        assert parts[j].Some?;
      }
    }
  }

  /** A dictionary of lists yields as many items as its lists hold together. */
  lemma ListMapCount(key: string, m: map<string, seq<string>>)
    requires ExpandValue(key, ListMap(m)).Some?
    ensures var keys := SortedKeys(m.Keys);
      |ExpandValue(key, ListMap(m)).value| == TotalLength(seq(|keys|, j requires 0 <= j < |keys| => m[keys[j]]))
  {
    var keys := SortedKeys(m.Keys);
    var blocks: seq<seq<Item>> := Values(ListMapParts(key, m));
    var lists := seq(|keys|, j requires 0 <= j < |keys| => m[keys[j]]);
    ListMapExpansion(key, m);
    assert forall j :: 0 <= j < |keys| ==> |blocks[j]| == |lists[j]|;
    TotalLengthMatch(blocks, lists);
    FlattenLength(blocks);
  }

  /** One entry of a dictionary of lists: its list's expansion under `key[nestedKey]`. */
  lemma ListMapPartAt(key: string, m: map<string, seq<string>>, j: nat)
    requires j < |SortedKeys(m.Keys)|
    ensures var keys := SortedKeys(m.Keys);
      var part := ListMapParts(key, m)[j];
      && (part.Some? <==> m[keys[j]] != [])
      && (part.Some? ==> |part.value| == |m[keys[j]]|)
      && (part.Some? ==> forall i :: 0 <= i < |m[keys[j]]| ==>
            part.value[i] == Item(Indexed(Nested(key, keys[j]), i), m[keys[j]][i]))
  {
    var keys := SortedKeys(m.Keys);
    assert ListMapParts(key, m)[j] == ExpandValue(Nested(key, keys[j]), TextList(m[keys[j]]));
    ListExpansion(Nested(key, keys[j]), m[keys[j]]);
  }

  lemma ListMapAllSome(m: map<string, seq<string>>, keys: seq<string>, parts: seq<Option<seq<Item>>>)
    requires keys == SortedKeys(m.Keys) && |parts| == |keys|
    requires forall j :: 0 <= j < |keys| ==> (parts[j].Some? <==> m[keys[j]] != [])
    ensures (forall j :: 0 <= j < |parts| ==> parts[j].Some?) <==> (forall k :: k in m ==> m[k] != [])
  {
    SortedKeysComplete(m.Keys);
    if forall j :: 0 <= j < |parts| ==> parts[j].Some? {
      forall k | k in m
        ensures m[k] != []
      {
        assert k in keys;
        var j :| 0 <= j < |keys| && keys[j] == k;
      }
    }
  }

  /**
   * Expansion asserts exactly when it would produce no item: unsupported
   * types, empty lists, empty dictionaries, a dictionary of lists holding an
   * empty list. Otherwise it yields at least one item.
   */
  lemma ExpansionFailsExactlyWhenEmpty(key: string, v: Value)
    ensures ExpandValue(key, v).Some? <==> Expandable(v)
    ensures ExpandValue(key, v).Some? ==> |ExpandValue(key, v).value| >= 1
  {
    match v
    case TextList(xs) => ListExpansion(key, xs);
    case TextMap(m) => TextMapExpansion(key, m);
    case ListMap(m) =>
      ListMapFails(key, m);
      ListMapUnfold(key, m);
    case _ =>
  }

  /** `key` followed by a bracketed suffix is named under `key`. */
  lemma BracketedName(key: string, suffix: string)
    requires |suffix| >= 1 && suffix[0] == '['
    ensures NamedUnder(key + suffix, key)
  {
    assert (key + suffix)[..|key|] == key;
  }

  /** Every item an expansion yields is named `key` or `key[...]`. */
  lemma NamesExtendKey(key: string, v: Value)
    ensures ExpandValue(key, v).Some? ==>
      var items := ExpandValue(key, v).value;
      forall p :: 0 <= p < |items| ==> NamedUnder(items[p].name, key)
  {
    match v
    case TextList(xs) => ListNames(key, xs);
    case TextMap(m) => TextMapNames(key, m);
    case ListMap(m) => ListMapNames(key, m);
    case _ =>
  }

  lemma ListNames(key: string, xs: seq<string>)
    ensures ExpandValue(key, TextList(xs)).Some? ==>
      var items := ExpandValue(key, TextList(xs)).value;
      forall p :: 0 <= p < |items| ==> NamedUnder(items[p].name, key)
  {
    ListExpansion(key, xs);
    forall i | 0 <= i < |xs|
      ensures NamedUnder(Indexed(key, i), key)
    {
      BracketedName(key, "[" + NatToDecimal(i) + "]");
      assert Indexed(key, i) == key + ("[" + NatToDecimal(i) + "]");
    }
  }

  lemma TextMapNames(key: string, m: map<string, string>)
    ensures ExpandValue(key, TextMap(m)).Some? ==>
      var items := ExpandValue(key, TextMap(m)).value;
      forall p :: 0 <= p < |items| ==> NamedUnder(items[p].name, key)
  {
    TextMapExpansion(key, m);
    var keys := SortedKeys(m.Keys);
    forall j | 0 <= j < |keys|
      ensures NamedUnder(Nested(key, keys[j]), key)
    {
      BracketedName(key, "[" + keys[j] + "]");
      assert Nested(key, keys[j]) == key + ("[" + keys[j] + "]");
    }
  }

  lemma ListMapNames(key: string, m: map<string, seq<string>>)
    ensures ExpandValue(key, ListMap(m)).Some? ==>
      var items := ExpandValue(key, ListMap(m)).value;
      forall p :: 0 <= p < |items| ==> NamedUnder(items[p].name, key)
  {
    if ExpandValue(key, ListMap(m)).Some? {
      var blocks: seq<seq<Item>> := Values(ListMapParts(key, m));
      ListMapExpansion(key, m);
      ShapedNames(key, m, SortedKeys(m.Keys), blocks);
      FlattenForall(blocks, (it: Item) => NamedUnder(it.name, key));
    }
  }

  /** The items `key[nestedKey][i]` of a dictionary of lists are named under `key`. */
  lemma ShapedNames(key: string, m: map<string, seq<string>>, keys: seq<string>, blocks: seq<seq<Item>>)
    requires ListMapShaped(key, m, keys, blocks)
    ensures forall j, i :: 0 <= j < |blocks| && 0 <= i < |blocks[j]| ==> NamedUnder(blocks[j][i].name, key)
  {
    forall j, i | 0 <= j < |blocks| && 0 <= i < |blocks[j]|
      ensures NamedUnder(blocks[j][i].name, key)
    {
      assert blocks[j][i].name == Indexed(Nested(key, keys[j]), i);
      BracketedName(key, "[" + keys[j] + "][" + NatToDecimal(i) + "]");
      assert Indexed(Nested(key, keys[j]), i) == key + ("[" + keys[j] + "][" + NatToDecimal(i) + "]");
    }
  }

  /** Top-level entry `j` contributes the expansion of the j-th key in ascending order. */
  lemma TopLevelPartAt(items: map<string, Value>, j: nat)
    requires j < |SortedKeys(items.Keys)|
    ensures var keys := SortedKeys(items.Keys);
      var part := TopLevelParts(items)[j];
      && part == ExpandValue(keys[j], items[keys[j]])
      && (part.Some? <==> Expandable(items[keys[j]]))
      && (part.Some? ==> |part.value| >= 1)
      && (part.Some? ==> forall i :: 0 <= i < |part.value| ==> NamedUnder(part.value[i].name, keys[j]))
  {
    var keys := SortedKeys(items.Keys);
    assert TopLevelParts(items)[j] == ExpandValue(keys[j], items[keys[j]]);
    ExpansionFailsExactlyWhenEmpty(keys[j], items[keys[j]]);
    NamesExtendKey(keys[j], items[keys[j]]);
  }

  /** One `addQuery` call asserts exactly when some top-level value is not expandable. */
  lemma TopLevelFails(items: map<string, Value>)
    ensures ExpandAll(items).Some? <==> forall k :: k in items ==> Expandable(items[k])
  {
    var keys := SortedKeys(items.Keys);
    var parts := TopLevelParts(items);
    ConcatFlatten(parts);
    forall j | 0 <= j < |keys|
      ensures parts[j].Some? <==> Expandable(items[keys[j]])
    {
      TopLevelPartAt(items, j);
    }
    TopLevelAllSome(items, keys, parts);
  }

  lemma TopLevelAllSome(items: map<string, Value>, keys: seq<string>, parts: seq<Option<seq<Item>>>)
    requires keys == SortedKeys(items.Keys) && |parts| == |keys|
    requires forall j :: 0 <= j < |keys| ==> (parts[j].Some? <==> Expandable(items[keys[j]]))
    ensures (forall j :: 0 <= j < |parts| ==> parts[j].Some?) <==> (forall k :: k in items ==> Expandable(items[k]))
  {
    SortedKeysComplete(items.Keys);
    if forall j :: 0 <= j < |parts| ==> parts[j].Some? {
      forall k | k in items
        ensures Expandable(items[k])
      {
        assert k in keys;
        var j :| 0 <= j < |keys| && keys[j] == k;
      }
    }
  }

  /**
   * Block `j` of `blocks` sits, whole and contiguous, at its offset in `q`,
   * and every item in it is named under `key`.
   */
  ghost predicate BlockPlaced(q: seq<Item>, blocks: seq<seq<Item>>, j: nat, key: string)
    requires j < |blocks|
  {
    && Offset(blocks, j) + |blocks[j]| == Offset(blocks, j + 1) <= |q|
    && q[Offset(blocks, j)..Offset(blocks, j + 1)] == blocks[j]
    && forall p :: Offset(blocks, j) <= p < Offset(blocks, j + 1) ==> NamedUnder(q[p].name, key)
  }

  /** A block whose items are all named under `key` is placed under `key` in the flattened sequence. */
  lemma PlacedBlock(q: seq<Item>, blocks: seq<seq<Item>>, j: nat, key: string)
    requires q == Flatten(blocks) && j < |blocks|
    requires forall i :: 0 <= i < |blocks[j]| ==> NamedUnder(blocks[j][i].name, key)
    ensures BlockPlaced(q, blocks, j, key)
  {
    BlockAt(blocks, j);
    forall p | Offset(blocks, j) <= p < Offset(blocks, j + 1)
      ensures NamedUnder(q[p].name, key)
    {
      assert q[p] == blocks[j][p - Offset(blocks, j)];
    }
  }

  /** Where the items of top-level entry `j` sit in the output of one call. */
  lemma TopLevelBlock(items: map<string, Value>, j: nat)
    requires ExpandAll(items).Some? && j < |SortedKeys(items.Keys)|
    ensures var keys := SortedKeys(items.Keys);
      var blocks: seq<seq<Item>> := Values(TopLevelParts(items));
      && |blocks| == |keys|
      && ExpandValue(keys[j], items[keys[j]]) == Some(blocks[j])
      && |blocks[j]| >= 1
      && BlockPlaced(ExpandAll(items).value, blocks, j, keys[j])
  {
    var keys := SortedKeys(items.Keys);
    var parts := TopLevelParts(items);
    var blocks: seq<seq<Item>> := Values(parts);
    ConcatFlatten(parts);
    assert parts[j].Some?;
    TopLevelPartAt(items, j);
    PlacedBlock(ExpandAll(items).value, blocks, j, keys[j]);
  }

  /**
   * One `addQuery` call: it asserts exactly when some top-level value is not
   * expandable; otherwise its items are the expansions of the top-level keys,
   * each a non-empty contiguous block whose names start with its key, the
   * blocks laid out in strictly ascending key order.
   */
  lemma TopLevelKeyOrder(items: map<string, Value>)
    ensures ExpandAll(items).Some? <==> forall k :: k in items ==> Expandable(items[k])
    ensures ExpandAll(items).Some? ==>
      var keys := SortedKeys(items.Keys);
      var blocks: seq<seq<Item>> := Values(TopLevelParts(items));
      var q := ExpandAll(items).value;
      && StrictlyAscending(keys)
      && |blocks| == |keys|
      && q == Flatten(blocks)
      && (forall j :: 0 <= j < |keys| ==>
            && ExpandValue(keys[j], items[keys[j]]) == Some(blocks[j])
            && |blocks[j]| >= 1
            && BlockPlaced(q, blocks, j, keys[j]))
      && (forall j, k :: 0 <= j < k < |keys| ==> Offset(blocks, j) + |blocks[j]| <= Offset(blocks, k))
  {
    TopLevelFails(items);
    SortedKeysAscending(items.Keys);
    if ExpandAll(items).Some? {
      var keys := SortedKeys(items.Keys);
      var parts := TopLevelParts(items);
      var blocks: seq<seq<Item>> := Values(parts);
      ConcatFlatten(parts);
      forall j | 0 <= j < |keys|
        ensures ExpandValue(keys[j], items[keys[j]]) == Some(blocks[j])
        ensures |blocks[j]| >= 1
        ensures BlockPlaced(ExpandAll(items).value, blocks, j, keys[j])
      {
        TopLevelBlock(items, j);
      }
      BlocksInOrder(blocks);
    }
  }
}
