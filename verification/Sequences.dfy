/** Facts about concatenation and multiset sums that the verifier has to be reminded of. */
module Sequences {

  lemma Assoc<T>(a: seq<T>, b: seq<T>, c: seq<T>)
    ensures (a + b) + c == a + (b + c)
  {
  }

  lemma Nothing<T>(a: seq<T>)
    ensures a + [] == a && [] + a == a
  {
  }

  lemma HeadTail<T>(a: seq<T>)
    requires a != []
    ensures a == [a[0]] + a[1..]
  {
  }

  lemma Swap<T>(first: multiset<T>, a: multiset<T>, b: multiset<T>, c: multiset<T>, d: multiset<T>)
    requires a + b == c + d
    ensures (first + a) + b == (first + c) + d
  {
    assert (first + a) + b == first + (a + b) && (first + c) + d == first + (c + d);
  }

  lemma Cancel<T>(b: multiset<T>, c: multiset<T>, w: multiset<T>, a: multiset<T>, all: multiset<T>, all': multiset<T>)
    requires b + c == w + a && all' + b == all + a
    ensures all + c == w + all'
  {
    forall x ensures (all + c)[x] == (w + all')[x] {
      assert (b + c)[x] == (w + a)[x] && (all' + b)[x] == (all + a)[x];
    }
  }

  lemma TakeAway<T>(a': multiset<T>, a: multiset<T>, left: multiset<T>, gone: multiset<T>)
    requires a' + (left + gone) == a + left
    ensures a' + gone == a
  {
    forall x ensures (a' + gone)[x] == a[x] { assert (a' + (left + gone))[x] == (a + left)[x]; }
  }
}
