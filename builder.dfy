/**
 * The builder: a URLComponents value under construction. The setters replace
 * one field each and return the builder itself for chaining; `addQuery`
 * expands a dictionary and appends its items to the query.
 */
module Builder {
  import opened Options
  import opened KeyOrder
  import opened Decimal
  import opened QueryExpansion
  import opened QueryProperties

  /**
   * The parts of Foundation's URLComponents the builder sets. `scheme`,
   * `host` and `queryItems` are nil until set; `path` starts out empty.
   */
  datatype URLComponents = URLComponents(
    scheme: Option<string>,
    host: Option<string>,
    path: string,
    queryItems: Option<seq<Item>>)

  /** `URLComponents()`: nothing set. */
  const Blank := URLComponents(None, None, "", None)

  /** The query items, reading a nil list as no items. */
  function Query(c: URLComponents): seq<Item>
  {
    if c.queryItems.None? then [] else c.queryItems.value
  }

  /**
   * The tail of `addQuery`: a nil query list becomes `added` itself, an
   * existing one gets `added` appended after its items.
   */
  function AppendQuery(c: URLComponents, added: seq<Item>): (r: URLComponents)
    ensures r.queryItems.Some? && Query(r) == Query(c) + added
    ensures r.scheme == c.scheme && r.host == c.host && r.path == c.path
  {
    if c.queryItems.None? then c.(queryItems := Some(added))
    else c.(queryItems := Some(c.queryItems.value + added))
  }

  /**
   * `URLComponents.addQuery(_:)`: the components after adding `items`, or
   * None where the expansion of one of its values asserts.
   */
  ghost function WithQuery(c: URLComponents, items: map<string, Value>): Option<URLComponents>
  {
    var added := ExpandAll(items);
    if added.None? then None else Some(AppendQuery(c, added.value))
  }

  /** `URLComponents.addQuery(_:)`: expands `items` in key order, then sets or appends. */
  method ComponentsAddQuery(c: URLComponents, items: map<string, Value>) returns (r: Option<URLComponents>)
    ensures r == WithQuery(c, items)
  {
    var queryItems := ExpandItems(items);
    if queryItems.None? {
      return None;
    }
    if c.queryItems.None? {
      r := Some(c.(queryItems := queryItems));
    } else {
      r := Some(c.(queryItems := Some(c.queryItems.value + queryItems.value)));
    }
  }

  /**
   * Adding a query never asserts when every value is expandable, keeps the
   * items already there as a prefix, and touches no other field.
   */
  lemma WithQueryAppends(c: URLComponents, items: map<string, Value>)
    ensures WithQuery(c, items).Some? <==> forall k :: k in items ==> Expandable(items[k])
    ensures WithQuery(c, items).Some? ==>
      var r := WithQuery(c, items).value;
      && r.queryItems.Some?
      && Query(r) == Query(c) + ExpandAll(items).value
      && Query(r)[..|Query(c)|] == Query(c)
      && r.scheme == c.scheme && r.host == c.host && r.path == c.path
  {
    TopLevelKeyOrder(items);
  }

  /** Two `addQuery` calls leave the first call's items before the second's. */
  lemma {:induction false} WithQueryTwice(c: URLComponents, first: map<string, Value>, second: map<string, Value>)
    requires WithQuery(c, first).Some? && WithQuery(WithQuery(c, first).value, second).Some?
    ensures Query(WithQuery(WithQuery(c, first).value, second).value)
      == Query(c) + ExpandAll(first).value + ExpandAll(second).value
  {
    var once := WithQuery(c, first).value;
    assert Query(once) == Query(c) + ExpandAll(first).value;
  }

  /**
   * The builder object: it owns one URLComponents value that its methods
   * update in place.
   */
  class URLComponentsBuilder {
    var urlComponents: URLComponents

    /** `init()`: starts from blank components. */
    constructor ()
      ensures urlComponents == Blank
    {
      urlComponents := Blank;
    }

    /** `build()`: the components as built so far. */
    method Build() returns (c: URLComponents)
      ensures c == urlComponents
    {
      c := urlComponents;
    }

    /** `setScheme(_:)`: replaces the scheme and nothing else. */
    method SetScheme(scheme: string) returns (b: URLComponentsBuilder)
      modifies this
      ensures b == this
      ensures urlComponents == old(urlComponents).(scheme := Some(scheme))
    {
      urlComponents := urlComponents.(scheme := Some(scheme));
      b := this;
    }

    /** `setHost(_:)`: replaces the host and nothing else. */
    method SetHost(host: string) returns (b: URLComponentsBuilder)
      modifies this
      ensures b == this
      ensures urlComponents == old(urlComponents).(host := Some(host))
    {
      urlComponents := urlComponents.(host := Some(host));
      b := this;
    }

    /** `setPath(_:)`: replaces the path and nothing else. */
    method SetPath(path: string) returns (b: URLComponentsBuilder)
      modifies this
      ensures b == this
      ensures urlComponents == old(urlComponents).(path := path)
    {
      urlComponents := urlComponents.(path := path);
      b := this;
    }

    /**
     * `addQuery(items:)`: appends the expansion of `items` to the query. The
     * source asserts on a value it cannot expand, so callers must pass
     * expandable values only.
     */
    method AddQuery(items: map<string, Value>) returns (b: URLComponentsBuilder)
      requires forall k :: k in items ==> Expandable(items[k])
      modifies this
      ensures b == this
      ensures Some(urlComponents) == WithQuery(old(urlComponents), items)
      ensures Query(urlComponents) == Query(old(urlComponents)) + ExpandAll(items).value
    {
      WithQueryAppends(urlComponents, items);
      var r := ComponentsAddQuery(urlComponents, items);
      urlComponents := r.value;
      b := this;
    }
  }

  /** The builder chain every scenario starts from: scheme, host and path set, no query yet. */
  method ChainedSetters() returns (c: URLComponents)
    ensures c == URLComponents(Some("http"), Some("urlbuilder.com"), "/api/", None)
  {
    var builder := new URLComponentsBuilder();
    var b := builder.SetScheme("http");
    b := b.SetHost("urlbuilder.com");
    b := b.SetPath("/api/");
    c := b.Build();
  }
}
