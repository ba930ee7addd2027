/** The list transforms the editing panel emits: append one entry
    (`[...images, newEntry]`) and keep the entries whose identifier differs
    (`images.filter(img => img.id !== id)`). They are generic in the entry
    type; `key` picks the identifier. */
module Collections {

  /** `a` is `b` with some entries dropped and the rest in their order. */
  ghost predicate IsSubsequence<T>(a: seq<T>, b: seq<T>)
    decreases |b|
  {
    if b == [] then a == []
    else (a != [] && a[0] == b[0] && IsSubsequence(a[1..], b[1..])) || IsSubsequence(a, b[1..])
  }

  /** The entries of `xs` whose key is not `id`, in their original order. */
  function Without<T(==)>(xs: seq<T>, key: T -> string, id: string): (r: seq<T>)
    ensures |r| <= |xs|
    ensures forall i :: 0 <= i < |r| ==> r[i] in xs && key(r[i]) != id
    ensures forall i :: 0 <= i < |xs| && key(xs[i]) != id ==> xs[i] in r
  {
    if xs == [] then []
    else (if key(xs[0]) == id then [] else [xs[0]]) + Without(xs[1..], key, id)
  }

  /** How many entries of `xs` have key `id`. */
  function CountKey<T>(xs: seq<T>, key: T -> string, id: string): nat
  {
    if xs == [] then 0 else (if key(xs[0]) == id then 1 else 0) + CountKey(xs[1..], key, id)
  }

  /** Filtering keeps the relative order of what it keeps. */
  lemma {:induction false} WithoutIsSubsequence<T>(xs: seq<T>, key: T -> string, id: string)
    ensures IsSubsequence(Without(xs, key, id), xs)
  {
    if xs != [] {
      WithoutIsSubsequence(xs[1..], key, id);
      var r := Without(xs, key, id);
      if key(xs[0]) != id {
        assert r == [xs[0]] + Without(xs[1..], key, id);
        assert r[1..] == Without(xs[1..], key, id);
      } else {
        assert r == Without(xs[1..], key, id);
      }
    }
  }

  /** Filtering keeps every copy of a kept entry and no copy of a dropped one. */
  lemma {:induction false} WithoutMultiplicity<T>(xs: seq<T>, key: T -> string, id: string, x: T)
    ensures multiset(Without(xs, key, id))[x] == if key(x) == id then 0 else multiset(xs)[x]
  {
    if xs != [] {
      WithoutMultiplicity(xs[1..], key, id, x);
      assert xs == [xs[0]] + xs[1..];
      var head: seq<T> := if key(xs[0]) == id then [] else [xs[0]];
      assert multiset(head + Without(xs[1..], key, id))
          == multiset(head) + multiset(Without(xs[1..], key, id));
    }
  }

  /** Exactly the entries with key `id` disappear. */
  lemma {:induction false} WithoutLength<T>(xs: seq<T>, key: T -> string, id: string)
    ensures |Without(xs, key, id)| + CountKey(xs, key, id) == |xs|
  {
    if xs != [] {
      WithoutLength(xs[1..], key, id);
    }
  }

  /** Filtering distributes over concatenation. */
  lemma {:induction false} WithoutAppend<T>(xs: seq<T>, ys: seq<T>, key: T -> string, id: string)
    ensures Without(xs + ys, key, id) == Without(xs, key, id) + Without(ys, key, id)
  {
    if xs == [] {
      assert xs + ys == ys;
    } else {
      assert (xs + ys)[1..] == xs[1..] + ys;
      WithoutAppend(xs[1..], ys, key, id);
    }
  }

  /** Filtering changes nothing exactly when no entry has key `id`. */
  lemma {:induction false} WithoutUnchanged<T>(xs: seq<T>, key: T -> string, id: string)
    ensures Without(xs, key, id) == xs <==> forall i :: 0 <= i < |xs| ==> key(xs[i]) != id
  {
    if xs != [] {
      WithoutUnchanged(xs[1..], key, id);
      if key(xs[0]) == id {
        assert xs[0] in xs;
      } else {
        assert forall i :: 1 <= i < |xs| ==> xs[i] == xs[1..][i - 1];
      }
    }
  }

  /** Filtering twice by the same key is filtering once. */
  lemma WithoutIdempotent<T>(xs: seq<T>, key: T -> string, id: string)
    ensures Without(Without(xs, key, id), key, id) == Without(xs, key, id)
  {
    var r := Without(xs, key, id);
    assert forall i :: 0 <= i < |r| ==> r[i] in r;
    WithoutUnchanged(r, key, id);
  }

  /** Appending an entry whose key is new and then removing that key gives
      back the original list: remove undoes add. */
  lemma AppendThenRemove<T>(xs: seq<T>, x: T, key: T -> string)
    requires forall i :: 0 <= i < |xs| ==> key(xs[i]) != key(x)
    ensures Without(xs + [x], key, key(x)) == xs
  {
    WithoutAppend(xs, [x], key, key(x));
    WithoutUnchanged(xs, key, key(x));
    assert Without([x], key, key(x)) == [];
  }

  /** Appending an entry with a different key commutes with removing `id`. */
  lemma AppendThenRemoveOther<T>(xs: seq<T>, x: T, key: T -> string, id: string)
    requires key(x) != id
    ensures Without(xs + [x], key, id) == Without(xs, key, id) + [x]
  {
    WithoutAppend(xs, [x], key, id);
    assert Without([x], key, id) == [x];
  }
}
