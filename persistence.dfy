/**
 * What the four record managers share: a list kept under one key of the
 * app's key-value store, read back as the empty list when nothing readable
 * is there, and the filter their `delete` operations apply.
 */
module Persistence {

  /**
   * What the key-value store holds under one key: nothing, bytes that do not
   * decode to a list of records, or an encoded list. Encoding is modelled as
   * the identity on the list.
   */
  datatype Slot<T> = Missing | Undecodable | Encoded(items: seq<T>)

  /** The `get` half of every manager: the stored list, or `[]` when the key is empty or does not decode. */
  function Decode<T>(slot: Slot<T>): seq<T>
  {
    match slot
    case Encoded(items) => items
    case _ => []
  }

  /** The list with every record whose key is `id` dropped (`filter { $0.id != id }`). */
  function Without<T(==,!new)>(xs: seq<T>, key: T -> string, id: string): (r: seq<T>)
    ensures forall x :: x in r <==> x in xs && key(x) != id
    ensures |r| <= |xs|
  {
    if xs == [] then []
    else (if key(xs[0]) != id then [xs[0]] else []) + Without(xs[1..], key, id)
  }

  /** `a` is `b` with some elements left out and the others in their original order. */
  predicate IsSubsequence<T(==)>(a: seq<T>, b: seq<T>)
  {
    a == [] || (b != [] && ((a[0] == b[0] && IsSubsequence(a[1..], b[1..])) || IsSubsequence(a, b[1..])))
  }

  /** Deleting keeps the surviving records in the order they had. */
  lemma {:induction false} WithoutKeepsOrder<T(!new)>(xs: seq<T>, key: T -> string, id: string)
    ensures IsSubsequence(Without(xs, key, id), xs)
  {
    if xs != [] {
      WithoutKeepsOrder(xs[1..], key, id);
      if key(xs[0]) != id {
        assert Without(xs, key, id)[1..] == Without(xs[1..], key, id);
      } else {
        assert Without(xs, key, id) == Without(xs[1..], key, id);
      }
    }
  }

  /** Each surviving record is kept as often as it occurred; records with the id are gone entirely. */
  lemma {:induction false} WithoutCounts<T(!new)>(xs: seq<T>, key: T -> string, id: string)
    ensures forall x :: multiset(Without(xs, key, id))[x] == if key(x) != id then multiset(xs)[x] else 0
  {
    if xs != [] {
      WithoutCounts(xs[1..], key, id);
      assert xs == [xs[0]] + xs[1..];
    }
  }

  /** Deleting from a list with a first record filters that record and then the rest. */
  lemma WithoutCons<T(!new)>(x: T, xs: seq<T>, key: T -> string, id: string)
    ensures Without([x] + xs, key, id) == (if key(x) != id then [x] else []) + Without(xs, key, id)
  {
    var ys := [x] + xs;
    assert ys[0] == x && ys[1..] == xs;
  }

  /** Deleting distributes over the two halves of a list, so whatever is appended later is filtered on its own. */
  lemma {:induction false} WithoutAppend<T(!new)>(a: seq<T>, b: seq<T>, key: T -> string, id: string)
    ensures Without(a + b, key, id) == Without(a, key, id) + Without(b, key, id)
  {
    if a != [] {
      var x, rest := a[0], a[1..];
      var head := if key(x) != id then [x] else [];
      assert a == [x] + rest;
      assert a + b == [x] + (rest + b);
      assert Without(a + b, key, id) == head + Without(rest + b, key, id) by { WithoutCons(x, rest + b, key, id); }
      assert Without(a, key, id) == head + Without(rest, key, id) by { WithoutCons(x, rest, key, id); }
      WithoutAppend(rest, b, key, id);
    } else {
      assert a + b == b;
    }
  }

  /** Deleting an id no record has leaves the list exactly as it was. */
  lemma {:induction false} WithoutAbsent<T(!new)>(xs: seq<T>, key: T -> string, id: string)
    requires forall x :: x in xs ==> key(x) != id
    ensures Without(xs, key, id) == xs
  {
    if xs != [] {
      assert forall x :: x in xs[1..] ==> x in xs;
      WithoutAbsent(xs[1..], key, id);
      assert [xs[0]] + xs[1..] == xs;
    }
  }

  /** Deleting twice is deleting once. */
  lemma WithoutIdempotent<T(!new)>(xs: seq<T>, key: T -> string, id: string)
    ensures Without(Without(xs, key, id), key, id) == Without(xs, key, id)
  {
    WithoutAbsent(Without(xs, key, id), key, id);
  }
}
