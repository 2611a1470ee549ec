/** `Array.prototype.filter` and `Array.prototype.find` as functions on
    sequences, with a specification of filtering that does not mention
    how it is computed. */
module Seqs {
  import opened Wrappers

  /** `r` can be obtained from `s` by deleting elements, keeping the order. */
  ghost predicate SubsequenceOf<T>(r: seq<T>, s: seq<T>)
    decreases |s|
  {
    if r == [] then true
    else if s == [] then false
    else (r[0] == s[0] && SubsequenceOf(r[1..], s[1..])) || SubsequenceOf(r, s[1..])
  }

  /** The multiset counterpart of "`r` is `s` with the elements that fail
      `keep` removed": a kept value occurs as often as in `s`, any other
      value does not occur. */
  ghost predicate CountsFiltered<T(!new)>(r: seq<T>, s: seq<T>, keep: T -> bool) {
    forall x {:trigger multiset(r)[x]} :: multiset(r)[x] == if keep(x) then multiset(s)[x] else 0
  }

  /** `s.filter(keep)`: the elements of `s` that pass `keep`, in their order
      in `s`, each as often as it occurs there. */
  function Filter<T(!new)>(s: seq<T>, keep: T -> bool): (r: seq<T>)
    ensures SubsequenceOf(r, s)
    ensures CountsFiltered(r, s, keep)
    ensures forall x :: x in r <==> x in s && keep(x)
    decreases |s|
  {
    if s == [] then []
    else
      assert s == [s[0]] + s[1..];
      var rest := Filter(s[1..], keep);
      if keep(s[0]) then
        assert ([s[0]] + rest)[1..] == rest;
        [s[0]] + rest
      else rest
  }

  lemma {:induction false} SubsequenceCounts<T>(r: seq<T>, s: seq<T>)
    requires SubsequenceOf(r, s)
    ensures multiset(r) <= multiset(s)
    decreases |s|
  {
    if r != [] {
      assert s == [s[0]] + s[1..];
      if r[0] == s[0] && SubsequenceOf(r[1..], s[1..]) {
        SubsequenceCounts(r[1..], s[1..]);
        assert r == [r[0]] + r[1..];
      } else {
        SubsequenceCounts(r, s[1..]);
      }
    }
  }

  /** The two properties in Filter's contract determine its result: any
      sequence that is a subsequence of `s` with the filtered counts is
      `Filter(s, keep)`. */
  lemma {:induction false} FilterUnique<T(!new)>(r: seq<T>, s: seq<T>, keep: T -> bool)
    requires SubsequenceOf(r, s)
    requires CountsFiltered(r, s, keep)
    ensures r == Filter(s, keep)
    decreases |s|
  {
    if s == [] {
    } else {
      var x := s[0];
      assert s == [x] + s[1..];
      if keep(x) {
        assert multiset(r)[x] == multiset(s)[x] > 0;
        assert r != [];
        if r[0] == x && SubsequenceOf(r[1..], s[1..]) {
          assert r == [x] + r[1..];
          forall y ensures multiset(r[1..])[y] == if keep(y) then multiset(s[1..])[y] else 0 {
            assert multiset(r)[y] == multiset([x])[y] + multiset(r[1..])[y];
          }
          FilterUnique(r[1..], s[1..], keep);
        } else {
          SubsequenceCounts(r, s[1..]);
          assert false;
        }
      } else {
        assert multiset(r)[x] == 0;
        assert r != [] ==> r[0] != x by {
          if r != [] { assert r[0] in multiset(r); }
        }
        assert SubsequenceOf(r, s[1..]);
        FilterUnique(r, s[1..], keep);
      }
    }
  }

  /** Filtering twice with the same test is filtering once. */
  lemma {:induction false} FilterIdempotent<T(!new)>(s: seq<T>, keep: T -> bool)
    ensures Filter(Filter(s, keep), keep) == Filter(s, keep)
    decreases |s|
  {
    if s != [] {
      FilterIdempotent(s[1..], keep);
      var rest := Filter(s[1..], keep);
      if keep(s[0]) {
        assert ([s[0]] + rest)[1..] == rest;
      }
    }
  }

  /** `s.findIndex(found)`, as an Option: the position of the first element
      that passes `found`, or None when none does. */
  function FindFirst<T>(s: seq<T>, found: T -> bool): (r: Option<nat>)
    ensures r.None? <==> forall i :: 0 <= i < |s| ==> !found(s[i])
    ensures r.Some? ==> r.value < |s| && found(s[r.value])
                        && forall j :: 0 <= j < r.value ==> !found(s[j])
    decreases |s|
  {
    if s == [] then None
    else if found(s[0]) then Some(0)
    else
      match FindFirst(s[1..], found)
      case None => None
      case Some(i) => Some(i + 1)
  }
}
