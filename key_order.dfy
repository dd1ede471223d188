/**
 * Ordering of dictionary keys. Swift sorts the keys of a dictionary with `<` on
 * `String`; here keys are compared lexicographically by code point, and the
 * sorted enumeration of a finite set of keys is defined once (SortedKeys) and
 * computed by a method (SortedKeysOf).
 */
module KeyOrder {

  /** Code-point lexicographic order: a proper prefix is smaller. */
  predicate Less(a: string, b: string)
  {
    if |a| == 0 then |b| > 0
    else if |b| == 0 then false
    else if a[0] != b[0] then a[0] < b[0]
    else Less(a[1..], b[1..])
  }

  predicate LessEq(a: string, b: string)
  {
    a == b || Less(a, b)
  }

  lemma {:induction false} LessIrreflexive(a: string)
    ensures !Less(a, a)
  {
    if |a| > 0 {
      LessIrreflexive(a[1..]);
    }
  }

  lemma {:induction false} LessAsymmetric(a: string, b: string)
    ensures Less(a, b) ==> !Less(b, a)
  {
    if |a| > 0 && |b| > 0 && a[0] == b[0] {
      LessAsymmetric(a[1..], b[1..]);
    }
  }

  lemma {:induction false} LessTransitive(a: string, b: string, c: string)
    requires Less(a, b) && Less(b, c)
    ensures Less(a, c)
  {
    if |a| > 0 && a[0] == b[0] && b[0] == c[0] {
      LessTransitive(a[1..], b[1..], c[1..]);
    }
  }

  lemma {:induction false} LessTotal(a: string, b: string)
    ensures a == b || Less(a, b) || Less(b, a)
  {
    if |a| > 0 && |b| > 0 && a[0] == b[0] {
      LessTotal(a[1..], b[1..]);
      if a[1..] == b[1..] {
        assert a == [a[0]] + a[1..] && b == [b[0]] + b[1..];
      }
    }
  }

  /** A common prefix does not change the order. */
  lemma {:induction false} LessCommonPrefix(p: string, a: string, b: string)
    ensures Less(p + a, p + b) <==> Less(a, b)
    decreases |p|
  {
    if p == [] {
      assert p + a == a && p + b == b;
    } else {
      assert (p + a)[0] == (p + b)[0];
      assert (p + a)[1..] == p[1..] + a && (p + b)[1..] == p[1..] + b;
      LessCommonPrefix(p[1..], a, b);
    }
  }

  /** Every element of a sequence is strictly smaller than every later one. */
  ghost predicate StrictlyAscending(r: seq<string>)
  {
    forall i, j :: 0 <= i < j < |r| ==> Less(r[i], r[j])
  }

  lemma BelowAll(x: string, y: string, s: set<string>)
    requires Less(x, y)
    requires forall z :: z in s ==> LessEq(y, z)
    ensures forall z :: z in s ==> Less(x, z)
  {
    forall z | z in s
      ensures Less(x, z)
    {
      if y != z {
        LessTransitive(x, y, z);
      }
    }
  }

  /** The least key of a non-empty set. */
  ghost function Least(s: set<string>): (m: string)
    requires s != {}
    ensures m in s
    ensures forall x :: x in s ==> LessEq(m, x)
    decreases s
  {
    var x :| x in s;
    if s == {x} then x
    else
      var y := Least(s - {x});
      if Less(x, y) then
        BelowAll(x, y, s - {x});
        x
      else
        LessTotal(x, y);
        y
  }

  lemma LeastUnique(s: set<string>, m: string)
    requires m in s
    requires forall x :: x in s ==> LessEq(m, x)
    ensures m == Least(s)
  {
    var l := Least(s);
    if m != l {
      assert Less(m, l) && Less(l, m);
      LessAsymmetric(m, l);
    }
  }

  /** The keys of `s`, least first: the order of Swift's `sorted(by: <)`. */
  ghost function SortedKeys(s: set<string>): (r: seq<string>)
    ensures forall i :: 0 <= i < |r| ==> r[i] in s
    decreases s
  {
    if s == {} then []
    else
      var m := Least(s);
      [m] + SortedKeys(s - {m})
  }

  /** The enumeration lists every key of the set, each once. */
  lemma {:induction false} SortedKeysComplete(s: set<string>)
    ensures |SortedKeys(s)| == |s|
    ensures forall k :: k in s ==> k in SortedKeys(s)
    decreases s
  {
    if s != {} {
      var m := Least(s);
      SortedKeysComplete(s - {m});
      forall k | k in s
        ensures k in SortedKeys(s)
      {
        if k != m {
          assert k in SortedKeys(s - {m});
        }
      }
    }
  }

  /** The sorted keys are strictly ascending. */
  lemma {:induction false} SortedKeysAscending(s: set<string>)
    ensures StrictlyAscending(SortedKeys(s))
    decreases s
  {
    if s != {} {
      var m := Least(s);
      var rest := SortedKeys(s - {m});
      var r := SortedKeys(s);
      SortedKeysAscending(s - {m});
      assert r == [m] + rest;
      forall i, j | 0 <= i < j < |r|
        ensures Less(r[i], r[j])
      {
        assert r[j] == rest[j - 1] && rest[j - 1] in s - {m};
        if i > 0 {
          assert r[i] == rest[i - 1];
        }
      }
    }
  }

  /** `r` lists exactly the members of `s`. */
  ghost predicate Enumerates(s: set<string>, r: seq<string>)
  {
    && (forall i :: 0 <= i < |r| ==> r[i] in s)
    && (forall k :: k in s ==> k in r)
  }

  /** The head of an ascending listing of `s` is the least key of `s`. */
  lemma AscendingHead(s: set<string>, r: seq<string>)
    requires r != [] && StrictlyAscending(r) && Enumerates(s, r)
    ensures r[0] in s && r[0] == Least(s)
  {
    forall x | x in s
      ensures LessEq(r[0], x)
    {
      var i :| 0 <= i < |r| && r[i] == x;
    }
    LeastUnique(s, r[0]);
  }

  /** The tail of an ascending listing of `s` lists `s` without its head. */
  lemma AscendingTail(s: set<string>, r: seq<string>)
    requires r != [] && StrictlyAscending(r) && Enumerates(s, r)
    ensures StrictlyAscending(r[1..]) && Enumerates(s - {r[0]}, r[1..])
  {
    var rest := s - {r[0]};
    forall i | 0 <= i < |r[1..]|
      ensures r[1..][i] in rest
    {
      assert Less(r[0], r[i + 1]);
      LessIrreflexive(r[0]);
    }
    forall k | k in rest
      ensures k in r[1..]
    {
      var i :| 0 <= i < |r| && r[i] == k;
      assert i != 0;
      assert r[1..][i - 1] == k;
    }
  }

  /**
   * Whatever order a dictionary hands out its keys in, the only strictly
   * ascending arrangement of them is SortedKeys.
   */
  lemma {:induction false} SortedKeysUnique(s: set<string>, r: seq<string>)
    requires StrictlyAscending(r) && Enumerates(s, r)
    ensures r == SortedKeys(s)
    decreases |r|
  {
    if r == [] {
      assert s == {};
    } else {
      AscendingHead(s, r);
      AscendingTail(s, r);
      SortedKeysUnique(s - {r[0]}, r[1..]);
      assert r == [r[0]] + r[1..];
    }
  }

  /** The sorted keys start with the least key, followed by the sorted rest. */
  lemma SortedKeysFirst(front: seq<string>, s: set<string>)
    requires s != {}
    ensures front + SortedKeys(s) == (front + [Least(s)]) + SortedKeys(s - {Least(s)})
  {
  }

  /** Picks the least key of a non-empty set by a linear scan. */
  method FindLeast(s: set<string>) returns (m: string)
    requires s != {}
    ensures m == Least(s)
  {
    m :| m in s;
    var rest := s - {m};
    while rest != {}
      invariant rest <= s && m in s && m !in rest
      invariant forall x :: x in s && x !in rest ==> LessEq(m, x)
      decreases rest
    {
      var x :| x in rest;
      if Less(x, m) {
        BelowAll(x, m, s - rest);
        m := x;
      }
      else {
        LessTotal(x, m);
      }
      rest := rest - {x};
    }
    LeastUnique(s, m);
  }

  /** The sort that precedes every expansion loop. */
  method SortedKeysOf(s: set<string>) returns (keys: seq<string>)
    ensures keys == SortedKeys(s)
  {
    keys := [];
    var rest := s;
    while rest != {}
      invariant keys + SortedKeys(rest) == SortedKeys(s)
      decreases rest
    {
      var m := FindLeast(rest);
      SortedKeysFirst(keys, rest);
      keys := keys + [m];
      rest := rest - {m};
    }
  }
}
