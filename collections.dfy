/** The array idioms the catalog aggregates share: `findIndex` by id, `push` and `splice(i, 1)`.
    Items are compared by the id that `key` reads, never by reference. */
module Collections {

  /** Some item carries the id. */
  predicate HasId<T>(xs: seq<T>, key: T -> string, id: string) {
    exists k :: 0 <= k < |xs| && key(xs[k]) == id
  }

  /** No two items share an id. */
  predicate DistinctIds<T>(xs: seq<T>, key: T -> string) {
    forall i, j :: 0 <= i < j < |xs| ==> key(xs[i]) != key(xs[j])
  }

  /** `findIndex((x) => x.id === id)`: the first index whose id matches, or -1. */
  function IndexOf<T>(xs: seq<T>, key: T -> string, id: string): (i: int)
    ensures -1 <= i < |xs|
    ensures i == -1 <==> !HasId(xs, key, id)
    ensures 0 <= i ==> key(xs[i]) == id
    ensures 0 <= i ==> forall k :: 0 <= k < i ==> key(xs[k]) != id
  {
    if xs == [] then -1
    else if key(xs[0]) == id then 0
    else
      var j := IndexOf(xs[1..], key, id);
      assert forall k :: 1 <= k < |xs| ==> xs[k] == xs[1..][k - 1];
      if j == -1 then -1 else j + 1
  }

  /** `splice(i, 1)`: the item at `i` is dropped and the others keep their order. */
  function RemoveAt<T>(xs: seq<T>, i: nat): (r: seq<T>)
    requires i < |xs|
    ensures |r| == |xs| - 1
    ensures forall k :: 0 <= k < i ==> r[k] == xs[k]
    ensures forall k :: i <= k < |r| ==> r[k] == xs[k + 1]
    ensures multiset(r) + multiset{xs[i]} == multiset(xs)
  {
    assert xs == xs[..i] + [xs[i]] + xs[i + 1..];
    xs[..i] + xs[i + 1..]
  }

  /** The list around position `i`, and what `RemoveAt` leaves of it. */
  lemma RemoveAtSplit<T>(xs: seq<T>, i: nat)
    requires i < |xs|
    ensures xs == xs[..i] + [xs[i]] + xs[i + 1..]
    ensures RemoveAt(xs, i) == xs[..i] + xs[i + 1..]
  {
    assert xs == xs[..i] + [xs[i]] + xs[i + 1..];
  }

  /** Appending an item with a fresh id keeps the ids distinct. */
  lemma AppendKeepsDistinct<T>(xs: seq<T>, key: T -> string, x: T)
    requires DistinctIds(xs, key) && !HasId(xs, key, key(x))
    ensures DistinctIds(xs + [x], key)
  {
    var ys := xs + [x];
    forall i, j | 0 <= i < j < |ys|
      ensures key(ys[i]) != key(ys[j])
    {
      if j == |xs| {
        assert ys[i] == xs[i];
      } else {
        assert ys[i] == xs[i] && ys[j] == xs[j];
      }
    }
  }

  /** Removing an item keeps the ids distinct, and with distinct ids its id is then gone. */
  lemma RemoveKeepsDistinct<T>(xs: seq<T>, key: T -> string, i: nat)
    requires i < |xs| && DistinctIds(xs, key)
    ensures DistinctIds(RemoveAt(xs, i), key)
    ensures !HasId(RemoveAt(xs, i), key, key(xs[i]))
  {
    var r := RemoveAt(xs, i);
    forall a, b | 0 <= a < b < |r|
      ensures key(r[a]) != key(r[b])
    {
      var a' := if a < i then a else a + 1;
      var b' := if b < i then b else b + 1;
      assert r[a] == xs[a'] && r[b] == xs[b'];
    }
    forall k | 0 <= k < |r|
      ensures key(r[k]) != key(xs[i])
    {
      var k' := if k < i then k else k + 1;
      assert r[k] == xs[k'];
    }
  }
}
