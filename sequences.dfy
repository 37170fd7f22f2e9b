/** Order-preserving filtering of sequences, as `Array.prototype.filter` does it,
    with the facts that pin its result down: membership, order and uniqueness. */
module Sequences {

  /** No element occurs twice. */
  predicate Distinct<T(==)>(s: seq<T>) {
    forall i, j :: 0 <= i < j < |s| ==> s[i] != s[j]
  }

  /** `a` is obtained from `b` by deleting elements, keeping the order of the rest. */
  predicate IsSubsequence<T(==)>(a: seq<T>, b: seq<T>)
    decreases |b|
  {
    if a == [] then true
    else if b == [] then false
    else (a[0] == b[0] && IsSubsequence(a[1..], b[1..])) || IsSubsequence(a, b[1..])
  }

  /** The elements of `s` that do not occur in `drop`, in their order in `s`:
      `s.filter(x => !drop.includes(x))`. */
  function FilterOut<T(==)>(s: seq<T>, drop: seq<T>): (r: seq<T>)
    ensures forall x :: x in r ==> x in s && x !in drop
    ensures forall x :: x in s && x !in drop ==> x in r
    ensures IsSubsequence(r, s)
    ensures |r| <= |s|
  {
    if s == [] then []
    else if s[0] in drop then FilterOut(s[1..], drop)
    else
      var rest := FilterOut(s[1..], drop);
      assert ([s[0]] + rest)[1..] == rest;
      [s[0]] + rest
  }

  /** `FilterOut` keeps every occurrence of a kept element and none of a dropped one:
      the result has each element of `s` as often as `s` has it, or not at all. */
  lemma {:induction false} FilterOutCounts<T>(s: seq<T>, drop: seq<T>)
    ensures forall x | x in s :: multiset(FilterOut(s, drop))[x] == if x in drop then 0 else multiset(s)[x]
  {
    if s != [] {
      FilterOutCounts(s[1..], drop);
      assert s == [s[0]] + s[1..];
      assert multiset(s) == multiset{s[0]} + multiset(s[1..]);
      if s[0] !in drop {
        assert multiset(FilterOut(s, drop)) == multiset{s[0]} + multiset(FilterOut(s[1..], drop)) by {
          assert FilterOut(s, drop) == [s[0]] + FilterOut(s[1..], drop);
        }
      }
    }
  }

  lemma {:induction false} SubsequenceMembers<T>(a: seq<T>, b: seq<T>)
    requires IsSubsequence(a, b)
    ensures forall x :: x in a ==> x in b
    decreases |b|
  {
    if a != [] {
      if a[0] == b[0] && IsSubsequence(a[1..], b[1..]) {
        SubsequenceMembers(a[1..], b[1..]);
        assert a == [a[0]] + a[1..];
        assert b == [b[0]] + b[1..];
      } else {
        SubsequenceMembers(a, b[1..]);
        assert b == [b[0]] + b[1..];
      }
    }
  }

  lemma DistinctTail<T>(s: seq<T>)
    requires s != [] && Distinct(s)
    ensures Distinct(s[1..]) && s[0] !in s[1..]
  {
    forall k | 0 <= k < |s[1..]| ensures s[1..][k] != s[0] {
      assert s[1..][k] == s[k + 1];
    }
    forall i, j | 0 <= i < j < |s[1..]| ensures s[1..][i] != s[1..][j] {
      assert s[1..][i] == s[i + 1] && s[1..][j] == s[j + 1];
    }
  }

  /** Filtering a sequence without duplicates gives a sequence without duplicates. */
  lemma {:induction false} FilterOutDistinct<T>(s: seq<T>, drop: seq<T>)
    requires Distinct(s)
    ensures Distinct(FilterOut(s, drop))
  {
    if s != [] {
      DistinctTail(s);
      FilterOutDistinct(s[1..], drop);
      var rest := FilterOut(s[1..], drop);
      if s[0] !in drop {
        var r := [s[0]] + rest;
        assert FilterOut(s, drop) == r;
        forall i, j | 0 <= i < j < |r| ensures r[i] != r[j] {
          if i == 0 {
            assert r[j] == rest[j - 1] && r[j] in rest;
          } else {
            assert r[i] == rest[i - 1] && r[j] == rest[j - 1];
          }
        }
      }
    }
  }

  /** Dropping elements none of which occur in `s` leaves `s` as it is. */
  lemma {:induction false} FilterOutNothing<T>(s: seq<T>, drop: seq<T>)
    requires forall x :: x in s ==> x !in drop
    ensures FilterOut(s, drop) == s
  {
    if s != [] {
      assert forall x :: x in s[1..] ==> x in s;
      FilterOutNothing(s[1..], drop);
      assert s == [s[0]] + s[1..];
    }
  }

  /** The filter is the ONLY subsequence of a duplicate-free `s` holding exactly the
      elements of `s` outside `drop`: membership and order determine it. */
  lemma {:induction false} FilterOutUnique<T>(s: seq<T>, drop: seq<T>, r: seq<T>)
    requires Distinct(s)
    requires IsSubsequence(r, s)
    requires forall x :: x in r <==> x in s && x !in drop
    ensures r == FilterOut(s, drop)
    decreases |s|
  {
    if s != [] {
      var x, tail := s[0], s[1..];
      DistinctTail(s);
      if x in drop {
        assert x !in r;
        assert IsSubsequence(r, tail);
        forall y ensures y in r <==> y in tail && y !in drop {
          assert s == [x] + tail;
        }
        FilterOutUnique(tail, drop, r);
      } else {
        assert x in r;
        if !(r[0] == x && IsSubsequence(r[1..], tail)) {
          assert IsSubsequence(r, tail);
          SubsequenceMembers(r, tail);
          assert false;
        }
        SubsequenceMembers(r[1..], tail);
        assert r == [x] + r[1..];
        forall y ensures y in r[1..] <==> y in tail && y !in drop {
          assert s == [x] + tail;
        }
        FilterOutUnique(tail, drop, r[1..]);
      }
    }
  }
}
