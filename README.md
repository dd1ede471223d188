# URLComponentsBuilder: a verified model of the query-item expander

URLComponentsBuilder is a small Swift builder for Foundation's
`URLComponents`. Its setters assign the scheme, host and path. Its
`addQuery(items:)` turns a `[String: Any]` dictionary into URL query items:

- It sorts the top-level keys.
- It expands each value recursively with `queryItemsFrom(key:value:)`:
  - a String, Bool, Int or Double becomes one item;
  - a `[String]` becomes `key[0]`, `key[1]`, … in list order;
  - a `[String: String]` becomes `key[nestedKey]` in ascending nested-key order;
  - a `[String: [String]]` becomes `key[nestedKey][i]`.
- It asserts when a value yields no items.
- It appends the result to any query items set before.

This project models that core in Dafny:

- `options.dfy`: the `Option` type.
- `key_order.dfy`: code-point lexicographic order on keys.
  - It proves the order is a strict total order.
  - `SortedKeys` is the sorted enumeration of a key set. It is shown to be the
    only strictly ascending listing of the set.
  - `SortedKeysOf` is a selection-of-minimum method that computes it.
- `decimal.dfy`: the decimal rendering of `Int` values and list indices. It
  proves the numeral reads back as the same number.
- `flattening.dfy`: joining per-key item lists, where any part may fail.
- `query_expansion.dfy`:
  - the closed `Value` datatype that replaces Swift's `as?` casts;
  - the specification function `ExpandValue`;
  - the imperative expander methods (`QueryItemsFrom`, its three loop
    branches, and the key loop of `addQuery`), each proved equal to the
    specification.
- `query_properties.dfy`: what an expansion means, shape by shape:
  - item names and values;
  - counts and order;
  - exactly when the assertion trips;
  - that item names stay under their key;
  - the layout of one `addQuery` call as contiguous blocks in strictly
    ascending key order.
- `builder.dfy`:
  - `URLComponents`, holding the fields the builder touches;
  - the set-or-append step of `URLComponents.addQuery`;
  - the `URLComponentsBuilder` class, whose methods update its
    `urlComponents` field in place and return the builder for chaining.
- `scenarios.dfy`: the repository's test cases, as the items the model
  yields before percent-encoding.

## Model

| member | source | states |
|---|---|---|
| KeyOrder.LessTotal | URLComponentsBuilder/URLComponentsBuilder.swift:95 | any two keys are equal or ordered one way, so sorting by `<` is well defined |
| KeyOrder.LessTransitive | URLComponentsBuilder/URLComponentsBuilder.swift:95 | the key order used for sorting is transitive |
| KeyOrder.LessAsymmetric | URLComponentsBuilder/URLComponentsBuilder.swift:95 | no two keys are each smaller than the other |
| KeyOrder.LessIrreflexive | URLComponentsBuilder/URLComponentsBuilder.swift:95 | no key is smaller than itself |
| KeyOrder.SortedKeysComplete | URLComponentsBuilder/URLComponentsBuilder.swift:95 | the sorted enumeration lists every key of the dictionary, and exactly as many keys as the dictionary has |
| KeyOrder.SortedKeysAscending | URLComponentsBuilder/URLComponentsBuilder.swift:95 | the sorted enumeration is strictly ascending |
| KeyOrder.SortedKeysUnique | URLComponentsBuilder/URLComponentsBuilder.swift:95 | any strictly ascending listing of exactly the keys is the sorted enumeration, so the order does not depend on dictionary iteration order |
| KeyOrder.FindLeast | URLComponentsBuilder/URLComponentsBuilder.swift:95 | a scan over a non-empty key set finds the least key |
| KeyOrder.SortedKeysOf | URLComponentsBuilder/URLComponentsBuilder.swift:95 | `sorted(by: { $0.key < $1.key })` on the keys: the result is the sorted enumeration |
| Decimal.NatToDecimal | URLComponentsBuilder/URLComponentsBuilder.swift:128 | an index is interpolated as at least one digit, with no leading zero except for 0 itself |
| Decimal.IntToDecimalRoundTrip | URLComponentsBuilder/URLComponentsBuilder.swift:117-119 | `String(n)` for an Int is a canonical numeral that reads back as n |
| Decimal.NatToDecimalInjective | URLComponentsBuilder/URLComponentsBuilder.swift:128 | distinct indices render as distinct numerals |
| QueryExpansion.QueryItemsFrom | URLComponentsBuilder/URLComponentsBuilder.swift:106-152 | the imperative expander returns exactly the items of the recursive specification, or None where it asserts |
| QueryExpansion.ListItemsFrom | URLComponentsBuilder/URLComponentsBuilder.swift:125-131 | the indexed loop joins the expansions of `key[0]`, `key[1]`, … in list order |
| QueryExpansion.TextMapItemsFrom | URLComponentsBuilder/URLComponentsBuilder.swift:133-138 | the loop over the sorted nested keys joins the expansions of `key[nestedKey]` in that order |
| QueryExpansion.ListMapItemsFrom | URLComponentsBuilder/URLComponentsBuilder.swift:140-145 | the loop over the sorted nested keys joins the list expansions of `key[nestedKey]`, and fails when one of them asserts |
| QueryExpansion.ExpandItems | URLComponentsBuilder/URLComponentsBuilder.swift:92-97 | the loop of `addQuery` joins the expansions of the top-level keys in ascending key order, and fails when one of them asserts |
| QueryProperties.LeafExpansion | URLComponentsBuilder/URLComponentsBuilder.swift:109-123 | a String, Bool, Int or Double yields exactly one item named key: the text itself; "1" iff true and "0" iff false; the decimal of the Int, which parses back to it; the rendered Double |
| QueryProperties.ListExpansion | URLComponentsBuilder/URLComponentsBuilder.swift:125-131 | a list of n strings yields exactly n items, item i being `(key[i], xs[i])` with no re-sorting; it asserts iff the list is empty |
| QueryProperties.IndexedNamesDistinct | URLComponentsBuilder/URLComponentsBuilder.swift:128 | two list elements never share an item name |
| QueryProperties.TextMapExpansion | URLComponentsBuilder/URLComponentsBuilder.swift:133-138 | a `[String: String]` yields one item `(key[k], m[k])` per entry, with the k strictly ascending; it asserts iff the dictionary is empty |
| QueryProperties.ListMapExpansion | URLComponentsBuilder/URLComponentsBuilder.swift:140-145 | a `[String: [String]]` yields, for each nested key in strictly ascending order, one block of `key[k][i]` items in list order, the blocks joined |
| QueryProperties.ListMapFails | URLComponentsBuilder/URLComponentsBuilder.swift:140-147 | a `[String: [String]]` asserts iff it is empty or one of its lists is empty |
| QueryProperties.ListMapCount | URLComponentsBuilder/URLComponentsBuilder.swift:140-145 | a `[String: [String]]` yields as many items as its lists hold together |
| QueryProperties.ExpansionFailsExactlyWhenEmpty | URLComponentsBuilder/URLComponentsBuilder.swift:147 | an expansion asserts iff the value is unsupported, an empty list or dictionary, or a dictionary holding an empty list; otherwise it yields at least one item |
| QueryProperties.NamesExtendKey | URLComponentsBuilder/URLComponentsBuilder.swift:106-152 | every item name is the key itself or the key followed by a bracketed suffix |
| QueryProperties.TopLevelFails | URLComponentsBuilder/URLComponentsBuilder.swift:95-96 | one `addQuery` call asserts iff some top-level value is not expandable |
| QueryProperties.TopLevelKeyOrder | URLComponentsBuilder/URLComponentsBuilder.swift:94-97 | the call's items are the top-level expansions, each a non-empty contiguous block named under its key, with the blocks in strictly ascending key order |
| Builder.AppendQuery | URLComponentsBuilder/URLComponentsBuilder.swift:99-103 | a nil query list becomes the new items, an existing one gets them appended after its items, and no other field changes |
| Builder.ComponentsAddQuery | URLComponentsBuilder/URLComponentsBuilder.swift:91-104 | `URLComponents.addQuery`: the components with the sorted expansion set or appended, or None where an expansion asserts |
| Builder.WithQueryAppends | URLComponentsBuilder/URLComponentsBuilder.swift:91-104 | adding a query succeeds iff every value is expandable; the old items stay an unchanged prefix, the new expansion follows, and scheme, host and path are untouched |
| Builder.WithQueryTwice | URLComponentsBuilder/URLComponentsBuilder.swift:99-103 | two calls leave the first call's items before the second's, with no re-sort across calls |
| Builder.URLComponentsBuilder.constructor | URLComponentsBuilder/URLComponentsBuilder.swift:17-19 | a new builder holds blank components |
| Builder.URLComponentsBuilder.Build | URLComponentsBuilder/URLComponentsBuilder.swift:25-27 | `build()` returns the components as built so far |
| Builder.URLComponentsBuilder.SetScheme | URLComponentsBuilder/URLComponentsBuilder.swift:34-37 | sets the scheme, changes nothing else, and returns the same builder |
| Builder.URLComponentsBuilder.SetHost | URLComponentsBuilder/URLComponentsBuilder.swift:44-47 | sets the host, changes nothing else, and returns the same builder |
| Builder.URLComponentsBuilder.SetPath | URLComponentsBuilder/URLComponentsBuilder.swift:54-57 | sets the path, changes nothing else, and returns the same builder |
| Builder.URLComponentsBuilder.AddQuery | URLComponentsBuilder/URLComponentsBuilder.swift:83-86 | the builder's query becomes the old query followed by the sorted expansion of the items, and the builder is returned |
| Builder.ChainedSetters | URLComponentsBuilderTests/URLComponentsBuilderTests.swift:16-21 | the test fixture's chain yields scheme "http", host "urlbuilder.com", path "/api/" and no query |
| Scenarios.OneKey | URLComponentsBuilder/URLComponentsBuilder.swift:94-97 | a dictionary with one key yields exactly that key's expansion |
| Scenarios.TwoKeys | URLComponentsBuilder/URLComponentsBuilder.swift:94-97 | a dictionary with two keys yields the smaller key's expansion first |
| Scenarios.StringParameters | URLComponentsBuilderTests/URLComponentsBuilderTests.swift:41-51 | `lastname=Stark&name=Tony` before encoding |
| Scenarios.HasCarFirst | URLComponentsBuilderTests/URLComponentsBuilderTests.swift:62 | "hasCar" sorts before "hasMotorcycle" |
| Scenarios.BoolParameters | URLComponentsBuilderTests/URLComponentsBuilderTests.swift:53-64 | `hasCar=0&hasMotorcycle=1` |
| Scenarios.Decimal22000 | URLComponentsBuilderTests/URLComponentsBuilderTests.swift:75 | 22000 renders as "22000" |
| Scenarios.NumberParameters | URLComponentsBuilderTests/URLComponentsBuilderTests.swift:66-76 | `motorcyclePrice=22000&weightKg=238.6`, with the Double's text supplied |
| Scenarios.ArrayParameters | URLComponentsBuilder/URLComponentsBuilder.swift:125-131 | the test's phone list yields `phoneNumbers[0]`, `phoneNumbers[1]`, `phoneNumbers[2]` in list order, as the code writes them |
| Scenarios.TwoNestedKeys | URLComponentsBuilder/URLComponentsBuilder.swift:133-138 | a `[String: String]` with two keys yields the smaller nested key's item first |
| Scenarios.UsersExpansion | URLComponentsBuilderTests/URLComponentsBuilderTests.swift:99 | the nested users dictionary yields `users[lastname]=Doe`, then `users[name]=John` |
| Scenarios.DictionaryParameters | URLComponentsBuilderTests/URLComponentsBuilderTests.swift:90-100 | `users[lastname]=Doe&users[name]=John` before encoding |
| Scenarios.AppendScenarioItems | URLComponentsBuilderTests/URLComponentsBuilderTests.swift:102-112 | `password=%&34&username=dasdöm` before encoding, and `power=1` |
| Scenarios.AppendScenarioQuery | URLComponentsBuilderTests/URLComponentsBuilderTests.swift:114-126 | from no query, the two calls yield `power=1`, then `password`, then `username` |
| Scenarios.AppendMoreParameters | URLComponentsBuilderTests/URLComponentsBuilderTests.swift:114-126 | the builder chain with two `addQuery` calls ends with exactly those three items, in that order |

## Left out

- Percent-encoding of the query (`percentEncodedQuery`) is done by Foundation's `URLComponents`, which is not part of this model. Items are unencoded `(name, value)` pairs, and the scenarios state the expected queries before encoding.
- Double formatting (`String(element)` for a `Double`) is floating-point rendering. A `Real` value carries its rendered text, so `238.6` is supplied rather than derived.
- Swift's dynamic casts (`as?` on `Any`) and NSNumber bridging between Bool, Int and Double are replaced by the closed `Value` datatype. Each supported value takes exactly one branch, and every other runtime type is `Unsupported`.
- Builder.URLComponentsBuilder.AddQuery: requires every top-level value to be expandable. This is the debug-build contract of the `assert` at line 147. The failing path is modelled as None by `ComponentsAddQuery`, `QueryItemsFrom` and `ExpandValue`. Release builds compile the assert out and silently drop empty expansions; that behaviour is not modelled.
- Decimal.IntToDecimal: integers are unbounded. The 64-bit range of Swift's `Int` is not modelled, because rendering does not depend on it.
- KeyOrder.Less: keys are compared by code point. Swift's `String` `<` compares Unicode-normalised scalars; normalisation is not modelled.
- The test at URLComponentsBuilderTests/URLComponentsBuilderTests.swift:86-87 expects unindexed `phoneNumbers[]` names. Both the code (line 128) and its doc comment (lines 68-69) use indexed names, so `Scenarios.ArrayParameters` states the indexed form.
- `Set` and `Data` values (the TODO at line 149) are not handled by the source. They are `Unsupported` here.
- `URLComponents` is reduced to the four fields the builder touches: scheme, host, path and query items.
- The XCTest harness and the scheme, host and path getter tests (lines 26-39) are covered only through `ChainedSetters`.
- The private mutating `URLComponents.addQuery` is modelled as a method returning the new value (`ComponentsAddQuery`). The builder's `AddQuery` then stores that value in its field.

### Notes on the written design

- The design describes lists and dictionaries of arbitrary nested values. The code accepts only `[String]`, `[String: String]` and `[String: [String]]`, and this model follows the code.
- The design says the output order equals the lexicographic order of the full key path. The code orders keys level by level. Names such as `k[a]` and `k[a!]` are not in lexicographic order as whole strings (`]` sorts after `!`). So the model proves the order per level: strictly ascending top-level keys, ascending nested keys, and list order within a list.
- The design treats an unsupported value as the only error. The code's assertion also trips on an empty list, an empty dictionary, or a dictionary holding an empty list, and `ExpansionFailsExactlyWhenEmpty` states this.
