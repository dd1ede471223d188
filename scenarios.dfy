/**
 * The query strings the repository's own test cases expect, before
 * percent-encoding, derived from the model.
 */
module Scenarios {
  import opened Options
  import opened KeyOrder
  import opened Decimal
  import opened Flattening
  import opened QueryExpansion
  import opened QueryProperties
  import opened Builder

  /** A dictionary with one key expands exactly that key's value. */
  lemma OneKey(items: map<string, Value>, key: string, expanded: seq<Item>)
    requires items.Keys == {key} && ExpandValue(key, items[key]) == Some(expanded)
    ensures ExpandAll(items) == Some(expanded)
  {
    SortedKeysUnique(items.Keys, [key]);
    var parts := TopLevelParts(items);
    assert parts == [Some(expanded)];
    ConcatStep(parts, 0, []);
    assert parts[..1] == parts && [] + expanded == expanded;
  }

  /** A dictionary with two keys expands the smaller key first. */
  lemma TwoKeys(items: map<string, Value>, first: string, second: string, front: seq<Item>, back: seq<Item>)
    requires items.Keys == {first, second} && Less(first, second)
    requires ExpandValue(first, items[first]) == Some(front)
    requires ExpandValue(second, items[second]) == Some(back)
    ensures ExpandAll(items) == Some(front + back)
  {
    SortedKeysUnique(items.Keys, [first, second]);
    var parts := TopLevelParts(items);
    assert parts == [Some(front), Some(back)];
    ConcatStep(parts, 0, []);
    assert [] + front == front;
    ConcatStep(parts, 1, front);
    assert parts[..2] == parts;
  }

  /** `lastname=Stark&name=Tony`: strings are taken as they are, keys sorted. */
  lemma StringParameters()
    ensures ExpandAll(map["name" := Text("Tony"), "lastname" := Text("Stark")])
      == Some([Item("lastname", "Stark"), Item("name", "Tony")])
  {
    var front, back := [Item("lastname", "Stark")], [Item("name", "Tony")];
    TwoKeys(map["name" := Text("Tony"), "lastname" := Text("Stark")], "lastname", "name", front, back);
    assert front + back == [Item("lastname", "Stark"), Item("name", "Tony")];
  }

  /** "hasCar" sorts before "hasMotorcycle". */
  lemma HasCarFirst()
    ensures Less("hasCar", "hasMotorcycle")
  {
    LessCommonPrefix("has", "Car", "Motorcycle");
    assert "has" + "Car" == "hasCar";
    assert "has" + "Motorcycle" == "hasMotorcycle";
  }

  /** `hasCar=0&hasMotorcycle=1`: false becomes "0", true becomes "1". */
  lemma BoolParameters()
    ensures ExpandAll(map["hasMotorcycle" := Flag(true), "hasCar" := Flag(false)])
      == Some([Item("hasCar", "0"), Item("hasMotorcycle", "1")])
  {
    var front, back := [Item("hasCar", "0")], [Item("hasMotorcycle", "1")];
    HasCarFirst();
    TwoKeys(map["hasMotorcycle" := Flag(true), "hasCar" := Flag(false)], "hasCar", "hasMotorcycle", front, back);
    assert front + back == [Item("hasCar", "0"), Item("hasMotorcycle", "1")];
  }

  /** 22000 in decimal. */
  lemma Decimal22000()
    ensures IntToDecimal(22000) == "22000"
  {
    assert NatToDecimal(2) == "2";
    assert NatToDecimal(22) == "22";
    assert NatToDecimal(220) == "220";
    assert NatToDecimal(2200) == "2200";
    assert NatToDecimal(22000) == "22000";
  }

  /** `motorcyclePrice=22000&weightKg=238.6`: numbers in decimal. */
  lemma NumberParameters()
    ensures ExpandAll(map["motorcyclePrice" := Integer(22000), "weightKg" := Real("238.6")])
      == Some([Item("motorcyclePrice", "22000"), Item("weightKg", "238.6")])
  {
    var front, back := [Item("motorcyclePrice", "22000")], [Item("weightKg", "238.6")];
    Decimal22000();
    TwoKeys(map["motorcyclePrice" := Integer(22000), "weightKg" := Real("238.6")], "motorcyclePrice", "weightKg",
      front, back);
    assert front + back == [Item("motorcyclePrice", "22000"), Item("weightKg", "238.6")];
  }

  /**
   * A list of strings: `phoneNumbers[0]`, `phoneNumbers[1]`, `phoneNumbers[2]`
   * in list order.
   */
  lemma ArrayParameters()
    ensures ExpandAll(map["phoneNumbers" := TextList(["12345678", "87654321", "12348765"])])
      == Some([
        Item("phoneNumbers[0]", "12345678"),
        Item("phoneNumbers[1]", "87654321"),
        Item("phoneNumbers[2]", "12348765")])
  {
    var key := "phoneNumbers";
    var xs := ["12345678", "87654321", "12348765"];
    var expanded := [
      Item("phoneNumbers[0]", "12345678"),
      Item("phoneNumbers[1]", "87654321"),
      Item("phoneNumbers[2]", "12348765")];
    ListExpansion(key, xs);
    assert NatToDecimal(0) == "0" && NatToDecimal(1) == "1" && NatToDecimal(2) == "2";
    assert Indexed(key, 0) == "phoneNumbers[0]";
    assert Indexed(key, 1) == "phoneNumbers[1]";
    assert Indexed(key, 2) == "phoneNumbers[2]";
    var items := ExpandValue(key, TextList(xs)).value;
    assert items[0] == expanded[0] && items[1] == expanded[1] && items[2] == expanded[2];
    assert items == expanded;
    OneKey(map[key := TextList(xs)], key, expanded);
  }

  /** A `[String: String]` with two keys yields the smaller key's item first. */
  lemma TwoNestedKeys(key: string, m: map<string, string>, first: string, second: string)
    requires m.Keys == {first, second} && Less(first, second)
    ensures ExpandValue(key, TextMap(m))
      == Some([Item(Nested(key, first), m[first]), Item(Nested(key, second), m[second])])
  {
    SortedKeysUnique(m.Keys, [first, second]);
    TextMapExpansion(key, m);
    var keys := SortedKeys(m.Keys);
    assert keys[0] == first && keys[1] == second;
    var items := ExpandValue(key, TextMap(m)).value;
    assert |items| == 2;
    assert items[0] == Item(Nested(key, first), m[first]);
    assert items[1] == Item(Nested(key, second), m[second]);
    assert items == [Item(Nested(key, first), m[first]), Item(Nested(key, second), m[second])];
  }

  /** The nested dictionary of the dictionary scenario, expanded under `users`. */
  lemma UsersExpansion(users: map<string, string>)
    requires users.Keys == {"lastname", "name"} && users["lastname"] == "Doe" && users["name"] == "John"
    ensures ExpandValue("users", TextMap(users))
      == Some([Item("users[lastname]", "Doe"), Item("users[name]", "John")])
  {
    assert Less("lastname", "name");
    TwoNestedKeys("users", users, "lastname", "name");
    assert Nested("users", "lastname") == "users[lastname]";
    assert Nested("users", "name") == "users[name]";
  }

  /** `users[lastname]=Doe&users[name]=John`: nested keys sorted too. */
  lemma DictionaryParameters()
    ensures ExpandAll(map["users" := TextMap(map["name" := "John", "lastname" := "Doe"])])
      == Some([Item("users[lastname]", "Doe"), Item("users[name]", "John")])
  {
    UsersExpansion(map["name" := "John", "lastname" := "Doe"]);
    OneKey(map["users" := TextMap(map["name" := "John", "lastname" := "Doe"])], "users",
      [Item("users[lastname]", "Doe"), Item("users[name]", "John")]);
  }

  /** The two dictionaries of the append scenario and what they expand to. */
  lemma AppendScenarioItems()
    ensures ExpandAll(map["power" := Flag(true)]) == Some([Item("power", "1")])
    ensures ExpandAll(map["username" := Text("dasdöm"), "password" := Text("%&34")])
      == Some([Item("password", "%&34"), Item("username", "dasdöm")])
  {
    OneKey(map["power" := Flag(true)], "power", [Item("power", "1")]);
    var front, back := [Item("password", "%&34")], [Item("username", "dasdöm")];
    TwoKeys(map["username" := Text("dasdöm"), "password" := Text("%&34")], "password", "username", front, back);
    assert front + back == [Item("password", "%&34"), Item("username", "dasdöm")];
  }

  /** The query after the two `addQuery` calls of the append scenario, from no query at all. */
  lemma AppendScenarioQuery(start: URLComponents, once: URLComponents, twice: URLComponents)
    requires start.queryItems.None?
    requires Some(once) == WithQuery(start, map["power" := Flag(true)])
    requires Some(twice) == WithQuery(once, map["username" := Text("dasdöm"), "password" := Text("%&34")])
    ensures twice.queryItems == Some([Item("power", "1"), Item("password", "%&34"), Item("username", "dasdöm")])
  {
    AppendScenarioItems();
    assert Query(once) == [Item("power", "1")];
    assert Query(twice) == [Item("power", "1")] + [Item("password", "%&34"), Item("username", "dasdöm")];
    assert twice.queryItems.Some?;
    assert [Item("power", "1")] + [Item("password", "%&34"), Item("username", "dasdöm")]
      == [Item("power", "1"), Item("password", "%&34"), Item("username", "dasdöm")];
  }

  /**
   * A second `addQuery` appends after the first one's items:
   * `power=1&password=%&34&username=dasdöm` before percent-encoding.
   */
  method AppendMoreParameters() returns (c: URLComponents)
    ensures c.queryItems == Some([Item("power", "1"), Item("password", "%&34"), Item("username", "dasdöm")])
  {
    var builder := new URLComponentsBuilder();
    var b := builder.SetScheme("http");
    b := b.SetHost("urlbuilder.com");
    b := b.SetPath("/api/");
    ghost var start := b.urlComponents;
    b := b.AddQuery(map["power" := Flag(true)]);
    ghost var once := b.urlComponents;
    b := b.AddQuery(map["username" := Text("dasdöm"), "password" := Text("%&34")]);
    c := b.Build();
    AppendScenarioQuery(start, once, c);
  }
}
