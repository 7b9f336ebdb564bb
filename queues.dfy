/**
 * Operations on Python lists used as FIFO queues and on the member lists of
 * broadcast groups.
 */
module Queues {

  /** No element occurs twice. */
  ghost predicate NoDuplicates<T>(q: seq<T>) {
    forall i, j :: 0 <= i < j < |q| ==> q[i] != q[j]
  }

  /** The position of the first occurrence of `x` (`list.index`). */
  function IndexOf<T(==)>(q: seq<T>, x: T): (i: nat)
    requires x in q
    ensures i < |q| && q[i] == x
    ensures x !in q[..i]
  {
    if q[0] == x then 0
    else
      assert q == [q[0]] + q[1..];
      var k := IndexOf(q[1..], x);
      assert q[..k + 1] == [q[0]] + q[1..][..k];
      1 + k
  }

  /** Deleting one position keeps the order of every other entry and loses no other entry. */
  lemma DeleteAt<T>(q: seq<T>, i: nat)
    requires i < |q|
    ensures |q[..i] + q[i + 1..]| == |q| - 1
    ensures multiset(q[..i] + q[i + 1..]) == multiset(q) - multiset{q[i]}
    ensures forall y :: y in q[..i] + q[i + 1..] ==> y in q
    ensures NoDuplicates(q) ==> NoDuplicates(q[..i] + q[i + 1..]) && q[i] !in q[..i] + q[i + 1..]
  {
    assert q == q[..i] + [q[i]] + q[i + 1..];
    var r := q[..i] + q[i + 1..];
    if NoDuplicates(q) {
      forall a, b | 0 <= a < b < |r| ensures r[a] != r[b] {
        var a' := if a < i then a else a + 1;
        var b' := if b < i then b else b + 1;
        assert r[a] == q[a'] && r[b] == q[b'];
      }
      forall k | 0 <= k < |r| ensures r[k] != q[i] {
        var k' := if k < i then k else k + 1;
        assert r[k] == q[k'];
      }
    }
  }

  /** Deleting position `i`: the entries before it keep their index, the entries after it move up by one. */
  lemma DeleteAtOrder<T>(q: seq<T>, i: nat)
    requires i < |q|
    ensures var r := q[..i] + q[i + 1..];
      && (forall j :: 0 <= j < i ==> r[j] == q[j])
      && (forall j :: i < j < |q| ==> r[j - 1] == q[j])
  {
  }

  /**
   * `list.remove(x)` behind the `if x in list` guard the callers use: the
   * first occurrence of `x` is deleted; a list without `x` is left alone.
   */
  function RemoveFirst<T(==)>(q: seq<T>, x: T): (r: seq<T>)
    ensures x !in q ==> r == q
    ensures x in q ==> r == q[..IndexOf(q, x)] + q[IndexOf(q, x) + 1..]
  {
    if x in q then
      var i := IndexOf(q, x);
      q[..i] + q[i + 1..]
    else q
  }

  /** `list.remove` on a list without repeats takes `x` out entirely and keeps the rest. */
  lemma RemoveFirstFacts<T>(q: seq<T>, x: T)
    ensures forall y :: y in RemoveFirst(q, x) ==> y in q
    ensures forall y :: y in q && y != x ==> y in RemoveFirst(q, x)
    ensures NoDuplicates(q) ==> NoDuplicates(RemoveFirst(q, x)) && x !in RemoveFirst(q, x)
  {
    if x in q {
      var i := IndexOf(q, x);
      DeleteAt(q, i);
      var r := q[..i] + q[i + 1..];
      forall y | y in q && y != x ensures y in r {
        var k :| 0 <= k < |q| && q[k] == y;
        if k < i { assert r[k] == y; } else { assert k != i && r[k - 1] == y; }
      }
    }
  }

  /** Every occurrence of `x` deleted, the rest in order. */
  function Without<T(==)>(q: seq<T>, x: T): (r: seq<T>)
    ensures |r| <= |q|
    ensures forall y :: y in r ==> y in q && y != x
    ensures forall k :: 0 <= k < |q| && q[k] != x ==> q[k] in r
    ensures NoDuplicates(q) ==> NoDuplicates(r)
  {
    if q == [] then []
    else
      assert q == [q[0]] + q[1..];
      var rest := Without(q[1..], x);
      assert NoDuplicates(q) ==> NoDuplicates(q[1..]) && q[0] !in q[1..];
      assert NoDuplicates(q) && q[0] != x ==> NoDuplicates([q[0]] + rest) by {
        if NoDuplicates(q) && q[0] != x {
          var r := [q[0]] + rest;
          forall a, b | 0 <= a < b < |r| ensures r[a] != r[b] {
            if a == 0 { assert r[b] == rest[b - 1]; assert r[b] in q[1..]; }
            else { assert r[a] == rest[a - 1] && r[b] == rest[b - 1]; }
          }
        }
      }
      if q[0] == x then rest else [q[0]] + rest
  }

  /** Appending an element that is not yet present keeps a list duplicate-free. */
  lemma AppendFresh<T>(q: seq<T>, x: T)
    requires NoDuplicates(q) && x !in q
    ensures NoDuplicates(q + [x])
  {
    var r := q + [x];
    forall a, b | 0 <= a < b < |r| ensures r[a] != r[b] {
      assert r[a] == q[a];
      if b == |q| { assert r[b] == x; } else { assert r[b] == q[b]; }
    }
  }

  /** An entry that no earlier entry equals is found at its own index. */
  lemma FirstIndex<T>(q: seq<T>, i: nat)
    requires i < |q| && forall j :: 0 <= j < i ==> q[j] != q[i]
    ensures IndexOf(q, q[i]) == i
  {
  }

  /** Dropping the head keeps a list duplicate-free and removes the head entirely. */
  lemma DropHead<T>(q: seq<T>)
    requires q != [] && NoDuplicates(q)
    ensures NoDuplicates(q[1..]) && q[0] !in q[1..]
  {
    forall k | 0 <= k < |q| - 1 ensures q[1..][k] != q[0] {
      assert q[1..][k] == q[k + 1];
    }
  }
}
