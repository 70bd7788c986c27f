/** List operations shared by the action button and the controller's user
    container: Java's `List.remove(Object)` (drop the first equal element)
    applied once, or once per element of an argument list. */
module Sequences {

  /** Every element of `s` occurs at most once. */
  ghost predicate NoDuplicates<T>(s: seq<T>) {
    forall x | x in s :: multiset(s)[x] == 1
  }

  /** No two positions of `s` hold the same element. */
  predicate Distinct<T(==)>(s: seq<T>) {
    forall i, j | 0 <= i < j < |s| :: s[i] != s[j]
  }

  /** The two ways of saying "no element occurs twice" agree. */
  lemma {:induction false} DistinctIffNoDuplicates<T>(s: seq<T>)
    ensures Distinct(s) <==> NoDuplicates(s)
    decreases |s|
  {
    if s != [] {
      var t := s[1..];
      assert s == [s[0]] + t;
      assert multiset(s) == multiset{s[0]} + multiset(t);
      DistinctIffNoDuplicates(t);
      assert Distinct(s) <==> s[0] !in t && Distinct(t) by {
        if Distinct(s) {
          forall k | 0 <= k < |t| ensures t[k] != s[0] {
            assert s[k + 1] == t[k];
          }
        }
        if s[0] !in t && Distinct(t) {
          forall i, j | 0 <= i < j < |s| ensures s[i] != s[j] {
            assert s[j] == t[j - 1];
            if i > 0 {
              assert s[i] == t[i - 1];
            }
          }
        }
      }
      assert NoDuplicates(s) <==> s[0] !in t && NoDuplicates(t) by {
        if NoDuplicates(s) {
          assert multiset(s)[s[0]] == 1;
          forall x | x in t ensures multiset(t)[x] == 1 {
            assert x in s;
          }
        }
        if s[0] !in t && NoDuplicates(t) {
          forall x | x in s ensures multiset(s)[x] == 1 {
            if x != s[0] {
              assert x in t;
            }
          }
        }
      }
    }
  }

  /** The position of the first occurrence of `x` in `s`. */
  function IndexOf<T(==)>(s: seq<T>, x: T): (i: nat)
    requires x in s
    ensures i < |s| && s[i] == x
    ensures x !in s[..i]
  {
    if s[0] == x then 0
    else
      var i := 1 + IndexOf(s[1..], x);
      assert s[..i] == [s[0]] + s[1..][..i - 1];
      i
  }

  /** Any position holding `x` with no `x` before it is the first occurrence. */
  lemma IndexOfUnique<T>(s: seq<T>, x: T, i: nat)
    requires i < |s| && s[i] == x && x !in s[..i]
    ensures IndexOf(s, x) == i
  {
  }

  /** Appending after the first occurrence does not change which element a
      removal takes. */
  lemma {:induction false} RemoveFirstAppend<T>(s: seq<T>, x: T, y: T)
    requires x in s
    ensures RemoveFirst(s + [y], x) == RemoveFirst(s, x) + [y]
    decreases |s|
  {
    if s[0] != x {
      assert (s + [y])[1..] == s[1..] + [y];
      RemoveFirstAppend(s[1..], x, y);
    } else {
      assert (s + [y])[1..] == s[1..] + [y];
    }
  }

  /** Removing a one-element list is a single removal. */
  lemma RemoveEachSingle<T>(s: seq<T>, x: T)
    ensures RemoveEach(s, [x]) == RemoveFirst(s, x)
  {
    assert [x][..0] == [];
  }

  /** `s` with its first occurrence of `x` removed, or `s` itself when `x` does
      not occur in it. */
  function RemoveFirst<T(==)>(s: seq<T>, x: T): (r: seq<T>)
    ensures x !in s ==> r == s
    ensures x in s ==> r == s[..IndexOf(s, x)] + s[IndexOf(s, x) + 1..]
  {
    if s == [] then []
    else if s[0] == x then s[1..]
    else
      var rest := RemoveFirst(s[1..], x);
      assert s == [s[0]] + s[1..];
      assert x in s ==> x in s[1..] && IndexOf(s, x) == 1 + IndexOf(s[1..], x);
      assert x in s ==>
        var k := IndexOf(s[1..], x);
        s[..k + 1] == [s[0]] + s[1..][..k] && s[k + 2..] == s[1..][k + 1..];
      [s[0]] + rest
  }

  /** Removing the first occurrence takes exactly one `x` out of the multiset
      of elements, and nothing else. */
  lemma {:induction false} RemoveFirstMultiset<T>(s: seq<T>, x: T)
    ensures multiset(RemoveFirst(s, x)) == multiset(s) - multiset{x}
  {
    if s != [] {
      assert s == [s[0]] + s[1..];
      if s[0] != x {
        RemoveFirstMultiset(s[1..], x);
        assert RemoveFirst(s, x) == [s[0]] + RemoveFirst(s[1..], x);
      }
    }
  }

  /** Removes the first occurrence of each element of `xs` in turn, from the
      first element of `xs` to the last; an element that no longer occurs is
      skipped. */
  function RemoveEach<T(==)>(s: seq<T>, xs: seq<T>): (r: seq<T>)
    ensures multiset(r) == multiset(s) - multiset(xs)
    ensures |r| == |multiset(s) - multiset(xs)|
  {
    if xs == [] then s
    else
      var front := xs[..|xs| - 1];
      assert xs == front + [xs[|xs| - 1]];
      RemoveFirstMultiset(RemoveEach(s, front), xs[|xs| - 1]);
      RemoveFirst(RemoveEach(s, front), xs[|xs| - 1])
  }

  /** One more removal step extends the fold by one element. */
  lemma RemoveEachStep<T>(s: seq<T>, xs: seq<T>, i: nat)
    requires i < |xs|
    ensures RemoveEach(s, xs[..i + 1]) == RemoveFirst(RemoveEach(s, xs[..i]), xs[i])
  {
    assert xs[..i + 1][..i] == xs[..i];
  }

  /** Removing each of the marked elements from a list without duplicates keeps
      exactly the unmarked elements, and the result has no duplicates either. */
  lemma RemoveEachFromDistinct<T>(s: seq<T>, xs: seq<T>)
    requires NoDuplicates(s)
    ensures NoDuplicates(RemoveEach(s, xs))
    ensures forall x :: x in RemoveEach(s, xs) <==> x in s && x !in xs
  {
    var r := RemoveEach(s, xs);
    forall x ensures x in r <==> x in s && x !in xs {
      assert x in r <==> multiset(r)[x] > 0;
      assert x in s <==> multiset(s)[x] > 0;
      assert x in xs <==> multiset(xs)[x] > 0;
      assert x in s ==> multiset(s)[x] == 1;
    }
    forall x | x in r ensures multiset(r)[x] == 1 {
      assert x in s && multiset(s)[x] == 1;
    }
  }

  /** `r` can be obtained from `s` by deleting elements, keeping the order of
      the rest (leftmost matching). */
  predicate IsSubsequence<T(==)>(r: seq<T>, s: seq<T>)
    decreases |s|
  {
    if r == [] then true
    else if s == [] then false
    else if r[0] == s[0] then IsSubsequence(r[1..], s[1..])
    else IsSubsequence(r, s[1..])
  }

  lemma {:induction false} SubsequenceDropHead<T>(r: seq<T>, s: seq<T>)
    requires r != [] && IsSubsequence(r, s)
    ensures IsSubsequence(r[1..], s)
    decreases |s|, |r|
  {
    if r[0] == s[0] {
      SubsequenceOfTail(r[1..], s);
    } else {
      SubsequenceDropHead(r, s[1..]);
      SubsequenceOfTail(r[1..], s);
    }
  }

  lemma {:induction false} SubsequenceOfTail<T>(r: seq<T>, s: seq<T>)
    requires s != [] && IsSubsequence(r, s[1..])
    ensures IsSubsequence(r, s)
    decreases |s|, |r|
  {
    if r != [] && r[0] == s[0] {
      SubsequenceDropHead(r, s[1..]);
    }
  }

  lemma {:induction false} SubsequenceTransitive<T>(a: seq<T>, b: seq<T>, c: seq<T>)
    requires IsSubsequence(a, b) && IsSubsequence(b, c)
    ensures IsSubsequence(a, c)
    decreases |c|
  {
    if a == [] || c == [] {
    } else if b[0] == c[0] {
      if a[0] == b[0] {
        SubsequenceTransitive(a[1..], b[1..], c[1..]);
      } else {
        SubsequenceTransitive(a, b[1..], c[1..]);
      }
    } else {
      SubsequenceTransitive(a, b, c[1..]);
      if a[0] == c[0] {
        SubsequenceDropHead(a, c[1..]);
      }
    }
  }

  lemma {:induction false} RemoveFirstIsSubsequence<T>(s: seq<T>, x: T)
    ensures IsSubsequence(RemoveFirst(s, x), s)
    decreases |s|
  {
    if s != [] {
      if s[0] == x {
        SubsequenceReflexive(s[1..]);
        SubsequenceOfTail(s[1..], s);
      } else {
        RemoveFirstIsSubsequence(s[1..], x);
        assert RemoveFirst(s, x)[1..] == RemoveFirst(s[1..], x);
      }
    }
  }

  lemma {:induction false} SubsequenceReflexive<T>(s: seq<T>)
    ensures IsSubsequence(s, s)
    decreases |s|
  {
    if s != [] {
      SubsequenceReflexive(s[1..]);
    }
  }

  /** Removing elements one by one keeps the survivors in their original
      relative order. */
  lemma {:induction false} RemoveEachIsSubsequence<T>(s: seq<T>, xs: seq<T>)
    ensures IsSubsequence(RemoveEach(s, xs), s)
    decreases |xs|
  {
    if xs == [] {
      SubsequenceReflexive(s);
    } else {
      var front := xs[..|xs| - 1];
      RemoveEachIsSubsequence(s, front);
      RemoveFirstIsSubsequence(RemoveEach(s, front), xs[|xs| - 1]);
      SubsequenceTransitive(RemoveEach(s, xs), RemoveEach(s, front), s);
    }
  }

  /** After one removal `x` is still present exactly when it occurred at least
      twice. */
  lemma RemoveFirstMembership<T>(s: seq<T>, x: T)
    ensures x in RemoveFirst(s, x) <==> multiset(s)[x] >= 2
  {
    RemoveFirstMultiset(s, x);
  }
}
