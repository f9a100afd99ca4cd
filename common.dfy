/** Entities and list operations shared by the two upload wizards. */
module Common {

  datatype Option<T> = None | Some(value: T)

  /** A browser `File` handle picked by the user. Two handles are the same file
      exactly when they are the same object, so a `File` is a class and its
      equality is reference equality, as with `===` on objects. */
  class File {
    const name: string
    const size: nat

    constructor (name: string, size: nat)
      ensures this.name == name && this.size == size
    {
      this.name := name;
      this.size := size;
    }
  }

  /** `s.filter(y => y !== x)`: every element of `s` except the ones identical
      to `x`, in their original order. */
  function Without<T(==)>(s: seq<T>, x: T): (r: seq<T>)
    ensures |r| == |s| - multiset(s)[x]
    ensures multiset(r) == multiset(s)[x := 0]
    ensures forall i :: 0 <= i < |r| ==> r[i] in s && r[i] != x
    ensures forall i :: 0 <= i < |s| && s[i] != x ==> s[i] in r
  {
    if s == [] then []
    else
      assert s == [s[0]] + s[1..];
      (if s[0] == x then [] else [s[0]]) + Without(s[1..], x)
  }

  /** Filtering commutes with concatenation: removing `x` from a list never
      touches, drops or reorders the elements around the removed ones. */
  lemma {:induction false} WithoutAppend<T>(a: seq<T>, b: seq<T>, x: T)
    ensures Without(a + b, x) == Without(a, x) + Without(b, x)
  {
    if a == [] {
      assert a + b == b;
    } else {
      assert (a + b)[0] == a[0];
      assert (a + b)[1..] == a[1..] + b;
      WithoutAppend(a[1..], b, x);
    }
  }

  /** Removing an element that is not in the list changes nothing. */
  lemma {:induction false} WithoutAbsent<T>(s: seq<T>, x: T)
    requires x !in s
    ensures Without(s, x) == s
  {
    if s != [] {
      assert s[1..] + [] == s[1..];
      WithoutAbsent(s[1..], x);
    }
  }

  /** Filtering keeps the remaining elements in their order, so a list
      without repetitions stays without repetitions. */
  lemma {:induction false} WithoutNoDuplicates<T>(s: seq<T>, x: T)
    ensures NoDuplicates(s) ==> NoDuplicates(Without(s, x))
  {
    if s != [] && NoDuplicates(s) {
      var tail := Without(s[1..], x);
      WithoutNoDuplicates(s[1..], x);
      if s[0] != x {
        assert s[0] !in tail;
        assert Without(s, x) == [s[0]] + tail;
      }
    }
  }

  /** No element occurs twice. */
  predicate NoDuplicates<T(==)>(s: seq<T>)
  {
    forall i, j :: 0 <= i < j < |s| ==> s[i] != s[j]
  }
}
