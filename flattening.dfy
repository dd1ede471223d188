/**
 * Concatenation of the item lists produced key by key (`queryItems += ...`
 * in a loop), where any one part may have tripped an assertion.
 */
module Flattening {
  import opened Options

  /** The blocks joined in order. */
  function Flatten<T>(blocks: seq<seq<T>>): seq<T>
  {
    if blocks == [] then [] else Flatten(blocks[..|blocks| - 1]) + blocks[|blocks| - 1]
  }

  /** Joins the parts in order; None as soon as one part is None. */
  function Concat<T>(parts: seq<Option<seq<T>>>): Option<seq<T>>
  {
    if parts == [] then Some([])
    else
      match Concat(parts[..|parts| - 1])
      case None => None
      case Some(front) =>
        match parts[|parts| - 1]
        case None => None
        case Some(last) => Some(front + last)
  }

  function Unwrap<T>(part: Option<seq<T>>): seq<T>
  {
    match part
    case None => []
    case Some(items) => items
  }

  /** The value of every part, None read as nothing. */
  function Values<T>(parts: seq<Option<seq<T>>>): (blocks: seq<seq<T>>)
  {
    seq(|parts|, i requires 0 <= i < |parts| => Unwrap(parts[i]))
  }

  /** Where block `j` starts in the flattened sequence. */
  function Offset<T>(blocks: seq<seq<T>>, j: nat): nat
    requires j <= |blocks|
  {
    |Flatten(blocks[..j])|
  }

  /** The loop step: one more part joined onto the prefix already joined. */
  lemma ConcatStep<T>(parts: seq<Option<seq<T>>>, j: nat, items: seq<T>)
    requires j < |parts| && Concat(parts[..j]) == Some(items)
    ensures parts[j].None? ==> Concat(parts[..j + 1]).None?
    ensures parts[j].Some? ==> Concat(parts[..j + 1]) == Some(items + parts[j].value)
  {
    assert parts[..j + 1][..j] == parts[..j];
  }

  /** The join succeeds exactly when every part does, and then it is the flattened values. */
  lemma {:induction false} ConcatFlatten<T>(parts: seq<Option<seq<T>>>)
    ensures Concat(parts).Some? <==> forall i :: 0 <= i < |parts| ==> parts[i].Some?
    ensures Concat(parts).Some? ==> Concat(parts).value == Flatten(Values(parts))
    decreases |parts|
  {
    if parts != [] {
      var n := |parts| - 1;
      ConcatFlatten(parts[..n]);
      assert Values(parts)[..n] == Values(parts[..n]);
      if Concat(parts[..n]).None? {
        var i :| 0 <= i < n && parts[..n][i].None?;
        assert parts[i].None?;
      }
    }
  }

  /** The loop step with its failure case: the next part either fails the whole join or extends it. */
  lemma ConcatNext<T>(parts: seq<Option<seq<T>>>, j: nat, items: seq<T>, next: Option<seq<T>>)
    requires j < |parts| && Concat(parts[..j]) == Some(items) && parts[j] == next
    ensures next.None? ==> Concat(parts).None?
    ensures next.Some? ==> Concat(parts[..j + 1]) == Some(items + next.value)
  {
    if next.None? {
      ConcatFails(parts, j);
    } else {
      ConcatStep(parts, j, items);
    }
  }

  /** One failed part makes the whole join fail. */
  lemma ConcatFails<T>(parts: seq<Option<seq<T>>>, j: nat)
    requires j < |parts| && parts[j].None?
    ensures Concat(parts).None?
  {
    ConcatFlatten(parts);
  }

  lemma {:induction false} FlattenAppend<T>(a: seq<seq<T>>, b: seq<seq<T>>)
    ensures Flatten(a + b) == Flatten(a) + Flatten(b)
    decreases |b|
  {
    if b != [] {
      var n := |b| - 1;
      assert (a + b)[..|a + b| - 1] == a + b[..n];
      assert (a + b)[|a + b| - 1] == b[n];
      FlattenAppend(a, b[..n]);
    } else {
      assert a + b == a;
    }
  }

  /** Block `j` sits, whole and contiguous, right where its offset says, just before block `j + 1`. */
  lemma BlockAt<T>(blocks: seq<seq<T>>, j: nat)
    requires j < |blocks|
    ensures Offset(blocks, j) + |blocks[j]| == Offset(blocks, j + 1) <= |Flatten(blocks)|
    ensures Flatten(blocks)[Offset(blocks, j)..Offset(blocks, j + 1)] == blocks[j]
    ensures forall i :: 0 <= i < |blocks[j]| ==> Flatten(blocks)[Offset(blocks, j) + i] == blocks[j][i]
  {
    assert blocks[..j + 1][..j] == blocks[..j];
    assert blocks == blocks[..j + 1] + blocks[j + 1..];
    FlattenAppend(blocks[..j + 1], blocks[j + 1..]);
  }

  /** Earlier blocks start no later than later ones. */
  lemma {:induction false} OffsetMonotone<T>(blocks: seq<seq<T>>, j: nat, k: nat)
    requires j <= k <= |blocks|
    ensures Offset(blocks, j) <= Offset(blocks, k)
    decreases k - j
  {
    if j < k {
      BlockAt(blocks, k - 1);
      OffsetMonotone(blocks, j, k - 1);
    }
  }

  /** Each block ends before any later block starts. */
  lemma BlocksInOrder<T>(blocks: seq<seq<T>>)
    ensures forall j, k :: 0 <= j < k < |blocks| ==> Offset(blocks, j) + |blocks[j]| <= Offset(blocks, k)
  {
    forall j, k | 0 <= j < k < |blocks|
      ensures Offset(blocks, j) + |blocks[j]| <= Offset(blocks, k)
    {
      BlockAt(blocks, j);
      OffsetMonotone(blocks, j + 1, k);
    }
  }

  /** Total number of elements over all blocks. */
  function TotalLength<T>(blocks: seq<seq<T>>): nat
  {
    if blocks == [] then 0 else TotalLength(blocks[..|blocks| - 1]) + |blocks[|blocks| - 1]|
  }

  lemma {:induction false} FlattenLength<T>(blocks: seq<seq<T>>)
    ensures |Flatten(blocks)| == TotalLength(blocks)
    decreases |blocks|
  {
    if blocks != [] {
      FlattenLength(blocks[..|blocks| - 1]);
    }
  }

  /** Blocks of one element each flatten to the sequence of those elements. */
  lemma {:induction false} FlattenSingletons<T>(blocks: seq<seq<T>>)
    requires forall j :: 0 <= j < |blocks| ==> |blocks[j]| == 1
    ensures |Flatten(blocks)| == |blocks|
    ensures forall j :: 0 <= j < |blocks| ==> Flatten(blocks)[j] == blocks[j][0]
    decreases |blocks|
  {
    if blocks != [] {
      FlattenSingletons(blocks[..|blocks| - 1]);
    }
  }

  /** Blocks of matching lengths have the same total length. */
  lemma {:induction false} TotalLengthMatch<T, U>(a: seq<seq<T>>, b: seq<seq<U>>)
    requires |a| == |b|
    requires forall j :: 0 <= j < |a| ==> |a[j]| == |b[j]|
    ensures TotalLength(a) == TotalLength(b)
    decreases |a|
  {
    if a != [] {
      TotalLengthMatch(a[..|a| - 1], b[..|b| - 1]);
    }
  }

  /** What holds of every element of every block holds of every element of the flattened sequence. */
  lemma {:induction false} FlattenForall<T>(blocks: seq<seq<T>>, P: T -> bool)
    requires forall j, i :: 0 <= j < |blocks| && 0 <= i < |blocks[j]| ==> P(blocks[j][i])
    ensures forall p :: 0 <= p < |Flatten(blocks)| ==> P(Flatten(blocks)[p])
    decreases |blocks|
  {
    if blocks != [] {
      var n := |blocks| - 1;
      FlattenForall(blocks[..n], P);
      forall p | 0 <= p < |Flatten(blocks)|
        ensures P(Flatten(blocks)[p])
      {
        var front := Flatten(blocks[..n]);
        if p >= |front| {
          assert Flatten(blocks)[p] == blocks[n][p - |front|];
        } else {
          assert Flatten(blocks)[p] == front[p];
          assert forall j, i :: 0 <= j < n && 0 <= i < |blocks[..n][j]| ==> P(blocks[..n][j][i]);
        }
      }
    }
  }
}
