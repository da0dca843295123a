/**
  The list operations the application builds everything from: JavaScript's
  `Array.prototype.filter`, removal of every occurrence of a value, and the
  first-occurrence de-duplication that spreading a JavaScript `Set` performs.
 */
module Seqs {

  /** No value occurs twice in `s`. */
  predicate NoDuplicates<T(==,!new)>(s: seq<T>) {
    forall i, j :: 0 <= i < j < |s| ==> s[i] != s[j]
  }

  /** The elements of `s` that satisfy `p`, in their original order. */
  function Filter<T(==,!new)>(s: seq<T>, p: T -> bool): (r: seq<T>)
    ensures |r| <= |s|
    ensures forall x :: x in r <==> x in s && p(x)
  {
    if s == [] then []
    else if p(s[0]) then [s[0]] + Filter(s[1..], p)
    else Filter(s[1..], p)
  }

  /** Filtering a concatenation filters each part: the survivors keep their relative order. */
  lemma {:induction false} FilterConcat<T(!new)>(a: seq<T>, b: seq<T>, p: T -> bool)
    ensures Filter(a + b, p) == Filter(a, p) + Filter(b, p)
  {
    if a == [] {
      assert a + b == b;
    } else {
      assert (a + b)[0] == a[0];
      assert (a + b)[1..] == a[1..] + b;
      FilterConcat(a[1..], b, p);
    }
  }

  /** When every element passes, filtering returns the sequence itself. */
  lemma {:induction false} FilterAllPass<T(!new)>(s: seq<T>, p: T -> bool)
    requires forall x :: x in s ==> p(x)
    ensures Filter(s, p) == s
  {
    if s != [] {
      assert forall x :: x in s[1..] ==> x in s;
      FilterAllPass(s[1..], p);
    }
  }

  /** A passing value keeps all of its occurrences; a failing value keeps none. */
  lemma {:induction false} FilterCount<T(!new)>(s: seq<T>, p: T -> bool, x: T)
    ensures multiset(Filter(s, p))[x] == if p(x) then multiset(s)[x] else 0
  {
    if s != [] {
      assert s == [s[0]] + s[1..];
      assert multiset(s) == multiset([s[0]]) + multiset(s[1..]);
      FilterCount(s[1..], p, x);
    }
  }

  /** Filtering never introduces a duplicate. */
  lemma {:induction false} FilterNoDuplicates<T(!new)>(s: seq<T>, p: T -> bool)
    ensures NoDuplicates(s) ==> NoDuplicates(Filter(s, p))
  {
    if s != [] && NoDuplicates(s) {
      assert NoDuplicates(s[1..]) by {
        forall i, j | 0 <= i < j < |s[1..]| ensures s[1..][i] != s[1..][j] {
          assert s[1..][i] == s[i + 1] && s[1..][j] == s[j + 1];
        }
      }
      FilterNoDuplicates(s[1..], p);
      assert s[0] !in s[1..];
    }
  }

  /** `s` without any occurrence of `v`. */
  function Remove<T(==,!new)>(s: seq<T>, v: T): (r: seq<T>)
    ensures v !in r
    ensures forall x :: x in r <==> x in s && x != v
  {
    Filter(s, x => x != v)
  }

  /** Removing a value that is absent changes nothing. */
  lemma RemoveAbsent<T(!new)>(s: seq<T>, v: T)
    requires v !in s
    ensures Remove(s, v) == s
  {
    FilterAllPass(s, x => x != v);
  }

  /** Removing a value from a concatenation removes it from each part. */
  lemma RemoveConcat<T(!new)>(a: seq<T>, b: seq<T>, v: T)
    ensures Remove(a + b, v) == Remove(a, v) + Remove(b, v)
  {
    FilterConcat(a, b, x => x != v);
  }

  /** Removing a value never introduces a duplicate. */
  lemma RemoveNoDuplicates<T(!new)>(s: seq<T>, v: T)
    ensures NoDuplicates(s) ==> NoDuplicates(Remove(s, v))
  {
    FilterNoDuplicates(s, x => x != v);
  }

  /** Every value other than `v` keeps all of its occurrences. */
  lemma RemoveKeepsOthers<T(!new)>(s: seq<T>, v: T, x: T)
    requires x != v
    ensures multiset(Remove(s, v))[x] == multiset(s)[x]
  {
    FilterCount(s, y => y != v, x);
  }

  /**
    The distinct elements of `s`, each at the place of its first occurrence:
    the iteration order of a JavaScript `Set` built from `s`.
   */
  function Dedupe<T(==,!new)>(s: seq<T>): (r: seq<T>)
    ensures NoDuplicates(r)
    ensures forall x :: x in r <==> x in s
    decreases |s|
  {
    if s == [] then []
    else
      var prior := Dedupe(s[..|s| - 1]);
      var last := s[|s| - 1];
      assert forall x :: x in s <==> x in s[..|s| - 1] || x == last by {
        assert s == s[..|s| - 1] + [last];
      }
      if last in prior then prior else prior + [last]
  }

  /** De-duplicating a sequence without duplicates returns it unchanged. */
  lemma {:induction false} DedupeOfDistinct<T(!new)>(s: seq<T>)
    requires NoDuplicates(s)
    ensures Dedupe(s) == s
  {
    if s != [] {
      var init := s[..|s| - 1];
      assert NoDuplicates(init);
      DedupeOfDistinct(init);
      assert s[|s| - 1] !in init;
      assert s == init + [s[|s| - 1]];
    }
  }

  /**
    Appending more elements only appends to the de-duplicated result: the
    order in which values first occur is the order of the result.
   */
  lemma {:induction false} DedupePrefix<T(!new)>(a: seq<T>, b: seq<T>)
    ensures |Dedupe(a)| <= |Dedupe(a + b)|
    ensures Dedupe(a + b)[..|Dedupe(a)|] == Dedupe(a)
    decreases |b|
  {
    if b == [] {
      assert a + b == a;
    } else {
      var ab := a + b;
      var init := a + b[..|b| - 1];
      assert ab[..|ab| - 1] == init;
      DedupePrefix(a, b[..|b| - 1]);
      var prior := Dedupe(init);
      assert Dedupe(ab) == prior || Dedupe(ab) == prior + [ab[|ab| - 1]];
      assert Dedupe(ab)[..|prior|] == prior;
    }
  }
}
