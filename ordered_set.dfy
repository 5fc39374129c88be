/**
 * A JavaScript `Set` (and the `includes`-guarded array append that mimics one):
 * an insertion-ordered sequence without duplicates.
 */
module OrderedSet {

  ghost predicate NoDuplicates<T>(s: seq<T>) {
    forall i, j :: 0 <= i < j < |s| ==> s[i] != s[j]
  }

  /** `set.add(x)`: appends `x` unless it is already there. */
  function Add<T(==)>(s: seq<T>, x: T): (r: seq<T>)
    ensures x in r
    ensures forall i :: 0 <= i < |s| ==> s[i] in r
    ensures forall i :: 0 <= i < |r| ==> r[i] in s || r[i] == x
    ensures x in s ==> r == s
    ensures x !in s ==> r == s + [x]
    ensures NoDuplicates(s) ==> NoDuplicates(r)
  {
    if x in s then s else s + [x]
  }

  /**
   * `idx` picks `r` out of `s` in order: `r[k]` is `s[idx[k]]` and the indices strictly
   * increase, so `r` is a subsequence of `s`.
   */
  ghost predicate Selects<T>(idx: seq<nat>, r: seq<T>, s: seq<T>) {
    && |idx| == |r|
    && (forall k :: 0 <= k < |r| ==> idx[k] < |s| && r[k] == s[idx[k]])
    && (forall k, l :: 0 <= k < l < |idx| ==> idx[k] < idx[l])
  }

  /** Every index of `idx` moved one place to the right. */
  ghost function Shift(idx: seq<nat>): (r: seq<nat>)
    ensures |r| == |idx| && forall k :: 0 <= k < |idx| ==> r[k] == idx[k] + 1
  {
    seq(|idx|, k requires 0 <= k < |idx| => idx[k] + 1)
  }

  /** A selection from the tail of `s` is a selection from `s`, with or without its head. */
  lemma SelectsCons<T>(idx: seq<nat>, r: seq<T>, s: seq<T>)
    requires s != [] && Selects(idx, r, s[1..])
    ensures Selects(Shift(idx), r, s)
    ensures Selects([0] + Shift(idx), [s[0]] + r, s)
  {
  }

  /** `idx` holds the position of every element of `s` other than `x`. */
  ghost predicate CoversAllBut<T>(idx: seq<nat>, s: seq<T>, x: T) {
    forall i :: 0 <= i < |s| && s[i] != x ==> i in idx
  }

  lemma CoversDroppedHead<T>(idx: seq<nat>, s: seq<T>, x: T)
    requires s != [] && s[0] == x && CoversAllBut(idx, s[1..], x)
    ensures CoversAllBut(Shift(idx), s, x)
  {
  }

  lemma CoversKeptHead<T>(idx: seq<nat>, s: seq<T>, x: T)
    requires s != [] && CoversAllBut(idx, s[1..], x)
    ensures CoversAllBut([0] + Shift(idx), s, x)
  {
  }

  /** `set.delete(x)`: drops `x`, keeping the others in their order (`DeleteKeepsOrder`). */
  function Delete<T(==)>(s: seq<T>, x: T): (r: seq<T>)
    ensures x !in r
    ensures forall i :: 0 <= i < |s| && s[i] != x ==> s[i] in r
    ensures forall i :: 0 <= i < |r| ==> r[i] in s && r[i] != x
    ensures |r| <= |s|
    ensures x !in s ==> r == s
    ensures NoDuplicates(s) ==> NoDuplicates(r)
  {
    if s == [] then []
    else if s[0] == x then Delete(s[1..], x)
    else [s[0]] + Delete(s[1..], x)
  }

  /** What is left after a delete is every other element, in its original order. */
  lemma {:induction false} DeleteKeepsOrder<T>(s: seq<T>, x: T)
    ensures exists idx :: Selects(idx, Delete(s, x), s) && CoversAllBut(idx, s, x)
  {
    if s == [] {
      assert Selects([], Delete(s, x), s);
    } else {
      var rest := Delete(s[1..], x);
      DeleteKeepsOrder(s[1..], x);
      var idx' :| Selects(idx', rest, s[1..]) && CoversAllBut(idx', s[1..], x);
      SelectsCons(idx', rest, s);
      if s[0] == x {
        CoversDroppedHead(idx', s, x);
        assert Selects(Shift(idx'), Delete(s, x), s);
      } else {
        CoversKeptHead(idx', s, x);
        assert Selects([0] + Shift(idx'), Delete(s, x), s);
      }
    }
  }

  /** Deleting what was just added to a set that did not hold it gives the set back. */
  lemma {:induction false} DeleteAdded<T>(s: seq<T>, x: T)
    requires x !in s
    ensures Delete(Add(s, x), x) == s
  {
    DeleteLast(s, x);
  }

  lemma {:induction false} DeleteLast<T>(s: seq<T>, x: T)
    requires x !in s
    ensures Delete(s + [x], x) == s
  {
    if s == [] {
      assert [] + [x] == [x];
    } else {
      assert (s + [x])[1..] == s[1..] + [x];
      DeleteLast(s[1..], x);
    }
  }
}
