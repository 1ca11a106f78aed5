/** Filtering a table, the shape every `get_queryset` takes once the ORM query
    is read as a predicate over the rows of a table. */
module SeqFilter {

  /** The rows of `s` that satisfy `keep`, in table order. Filtering never
      adds rows and never selects one the predicate rejects. */
  function Filter<T>(keep: T -> bool, s: seq<T>): (r: seq<T>)
    ensures |r| <= |s|
    ensures forall x :: x in r ==> x in s && keep(x)
  {
    if s == [] then [] else (if keep(s[0]) then [s[0]] else []) + Filter(keep, s[1..])
  }

  /** A row is selected exactly when it is in the table and satisfies the predicate. */
  lemma {:induction false} FilterMembership<T>(keep: T -> bool, s: seq<T>)
    ensures forall x :: x in Filter(keep, s) <==> x in s && keep(x)
  {
    if s != [] {
      FilterMembership(keep, s[1..]);
      assert s == [s[0]] + s[1..];
    }
  }

  /** When no row is kept, the result is empty. */
  lemma {:induction false} FilterNone<T>(keep: T -> bool, s: seq<T>)
    requires forall i :: 0 <= i < |s| ==> !keep(s[i])
    ensures Filter(keep, s) == []
  {
    if s != [] {
      FilterNone(keep, s[1..]);
    }
  }

  /** Two predicates that agree on every row of the table select the same rows. */
  lemma {:induction false} FilterCongruent<T>(keep1: T -> bool, keep2: T -> bool, s: seq<T>)
    requires forall i :: 0 <= i < |s| ==> keep1(s[i]) == keep2(s[i])
    ensures Filter(keep1, s) == Filter(keep2, s)
  {
    if s != [] {
      FilterCongruent(keep1, keep2, s[1..]);
    }
  }

  /** Appending a row to the table appends it to the result when it is kept. */
  lemma {:induction false} FilterAppend<T>(keep: T -> bool, s: seq<T>, x: T)
    ensures Filter(keep, s + [x]) == Filter(keep, s) + (if keep(x) then [x] else [])
  {
    if s == [] {
      assert s + [x] == [x];
    } else {
      assert (s + [x])[1..] == s[1..] + [x];
      FilterAppend(keep, s[1..], x);
    }
  }

  /** When the rows carry pairwise distinct keys and only rows with key `k` are kept,
      at most one row is selected. */
  lemma {:induction false} FilterUniqueKey<T>(keep: T -> bool, key: T -> nat, s: seq<T>, k: nat)
    requires forall i, j :: 0 <= i < j < |s| ==> key(s[i]) != key(s[j])
    requires forall i :: 0 <= i < |s| ==> keep(s[i]) ==> key(s[i]) == k
    ensures |Filter(keep, s)| <= 1
  {
    if s != [] {
      if keep(s[0]) {
        forall i | 0 <= i < |s[1..]|
          ensures !keep(s[1..][i])
        {
          assert key(s[0]) != key(s[i + 1]);
        }
        FilterNone(keep, s[1..]);
      } else {
        FilterUniqueKey(keep, key, s[1..], k);
      }
    }
  }
}
