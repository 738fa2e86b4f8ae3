/** Stable insertion sort under a strict order given as a predicate, and filtering. */
module Sorting {

  /** Irreflexive and transitive through its complement: elements that compare neither way count as equal. */
  ghost predicate StrictOrder<T(!new)>(above: (T, T) -> bool) {
    (forall a, b :: above(a, b) ==> !above(b, a)) && (forall a, b, c :: above(a, c) ==> above(a, b) || above(b, c))
  }

  predicate Ascending<T>(s: seq<T>, above: (T, T) -> bool) { forall i, j :: 0 <= i < j < |s| ==> !above(s[i], s[j]) }

  function Inserted<T>(s: seq<T>, e: T, above: (T, T) -> bool): (r: seq<T>)
    ensures |r| == |s| + 1
  {
    if s == [] || !above(s[|s| - 1], e) then s + [e] else Inserted(s[..|s| - 1], e, above) + [s[|s| - 1]]
  }

  function Sorted<T>(s: seq<T>, above: (T, T) -> bool): (r: seq<T>)
    ensures |r| == |s|
  {
    if s == [] then [] else Inserted(Sorted(s[..|s| - 1], above), s[|s| - 1], above)
  }

  lemma {:induction false} InsertedMembers<T(!new)>(s: seq<T>, e: T, above: (T, T) -> bool)
    ensures forall x :: x in Inserted(s, e, above) <==> x in s || x == e
  {
    if s != [] && above(s[|s| - 1], e) {
      InsertedMembers(s[..|s| - 1], e, above);
      assert s == s[..|s| - 1] + [s[|s| - 1]];
    }
  }

  lemma {:induction false} SortedMembers<T(!new)>(s: seq<T>, above: (T, T) -> bool)
    ensures forall x :: x in Sorted(s, above) <==> x in s
  {
    if s != [] {
      SortedMembers(s[..|s| - 1], above);
      InsertedMembers(Sorted(s[..|s| - 1], above), s[|s| - 1], above);
      assert s == s[..|s| - 1] + [s[|s| - 1]];
    }
  }

  lemma {:induction false} InsertedAscends<T(!new)>(s: seq<T>, e: T, above: (T, T) -> bool)
    requires StrictOrder(above) && Ascending(s, above)
    ensures Ascending(Inserted(s, e, above), above)
  {
    if s == [] || !above(s[|s| - 1], e) {
      NoneAbove(s, e, above);
    } else {
      var rest, last := s[..|s| - 1], s[|s| - 1];
      InsertedAscends(rest, e, above);
      InsertedMembers(rest, e, above);
      var r := Inserted(rest, e, above);
      forall i | 0 <= i < |r| ensures !above(r[i], last) { assert r[i] in r; }
    }
  }

  lemma {:induction false} SortedAscends<T(!new)>(s: seq<T>, above: (T, T) -> bool)
    requires StrictOrder(above)
    ensures Ascending(Sorted(s, above), above)
  {
    if s != [] {
      SortedAscends(s[..|s| - 1], above);
      InsertedAscends(Sorted(s[..|s| - 1], above), s[|s| - 1], above);
    }
  }

  lemma {:induction false} AscendingIsSorted<T>(s: seq<T>, above: (T, T) -> bool)
    requires Ascending(s, above)
    ensures Sorted(s, above) == s
  {
    if s != [] {
      AscendingIsSorted(s[..|s| - 1], above);
      assert s == s[..|s| - 1] + [s[|s| - 1]];
    }
  }

  // ---- elements that differ in pairs ----

  /** No two elements are alike. */
  predicate Apart<T>(s: seq<T>, alike: (T, T) -> bool) { forall i, j :: 0 <= i < j < |s| ==> !alike(s[i], s[j]) }

  ghost predicate Symmetric<T(!new)>(alike: (T, T) -> bool) { forall a, b :: alike(a, b) ==> alike(b, a) }

  lemma ApartOneMore<T(!new)>(s: seq<T>, e: T, alike: (T, T) -> bool)
    ensures Apart(s + [e], alike) <==> Apart(s, alike) && forall x :: x in s ==> !alike(x, e)
  {
    var all := s + [e];
    if Apart(all, alike) {
      forall i, j | 0 <= i < j < |s| ensures !alike(s[i], s[j]) { assert !alike(all[i], all[j]); }
      forall x | x in s ensures !alike(x, e) {
        var i :| 0 <= i < |s| && s[i] == x;
        assert !alike(all[i], all[|s|]);
      }
    }
  }

  lemma {:induction false} InsertedApart<T(!new)>(s: seq<T>, e: T, above: (T, T) -> bool, alike: (T, T) -> bool)
    requires Symmetric(alike)
    ensures Apart(Inserted(s, e, above), alike) <==> Apart(s + [e], alike)
  {
    if s != [] && above(s[|s| - 1], e) {
      var rest, last := s[..|s| - 1], s[|s| - 1];
      assert s == rest + [last];
      InsertedApart(rest, e, above, alike);
      InsertedMembers(rest, e, above);
      ApartOneMore(Inserted(rest, e, above), last, alike);
      ApartOneMore(rest, last, alike);
      ApartOneMore(rest, e, alike);
      ApartOneMore(s, e, alike);
    }
  }

  lemma {:induction false} SortedApart<T(!new)>(s: seq<T>, above: (T, T) -> bool, alike: (T, T) -> bool)
    requires Symmetric(alike)
    ensures Apart(Sorted(s, above), alike) <==> Apart(s, alike)
  {
    if s != [] {
      var rest, last := s[..|s| - 1], s[|s| - 1];
      assert s == rest + [last];
      SortedApart(rest, above, alike);
      SortedMembers(rest, above);
      InsertedApart(Sorted(rest, above), last, above, alike);
      ApartOneMore(Sorted(rest, above), last, alike);
      ApartOneMore(rest, last, alike);
    }
  }

  // ---- filtering ----

  function Filter<T>(s: seq<T>, keep: T -> bool): seq<T> {
    if s == [] then []
    else
      var rest := Filter(s[..|s| - 1], keep);
      if keep(s[|s| - 1]) then rest + [s[|s| - 1]] else rest
  }

  lemma {:induction false} FilterMembers<T(!new)>(s: seq<T>, keep: T -> bool)
    ensures forall b :: b in Filter(s, keep) <==> b in s && keep(b)
  {
    if s != [] {
      FilterMembers(s[..|s| - 1], keep);
      assert s == s[..|s| - 1] + [s[|s| - 1]];
    }
  }

  lemma {:induction false} FilterApart<T(!new)>(s: seq<T>, keep: T -> bool, alike: (T, T) -> bool)
    requires Apart(s, alike)
    ensures Apart(Filter(s, keep), alike)
  {
    if s != [] {
      var rest, last := s[..|s| - 1], s[|s| - 1];
      assert s == rest + [last];
      ApartOneMore(rest, last, alike);
      FilterApart(rest, keep, alike);
      FilterMembers(rest, keep);
      ApartOneMore(Filter(rest, keep), last, alike);
    }
  }

  lemma {:induction false} FilterInserted<T(!new)>(s: seq<T>, e: T, above: (T, T) -> bool, keep: T -> bool)
    requires StrictOrder(above) && Ascending(s, above)
    ensures Filter(Inserted(s, e, above), keep)
         == if keep(e) then Inserted(Filter(s, keep), e, above) else Filter(s, keep)
    decreases |s|, 1
  {
    if s == [] || !above(s[|s| - 1], e) {
      assert (s + [e])[..|s|] == s;
      NoneAbove(s, e, above);
      FilterMembers(s, keep);
      assert Filter(s, keep) != [] ==> Filter(s, keep)[|Filter(s, keep)| - 1] in Filter(s, keep);
    } else {
      FilterInsertedBefore(s, e, above, keep);
    }
  }

  lemma NoneAbove<T(!new)>(s: seq<T>, e: T, above: (T, T) -> bool)
    requires StrictOrder(above) && Ascending(s, above) && (s == [] || !above(s[|s| - 1], e))
    ensures forall x :: x in s ==> !above(x, e)
  {
    forall i | 0 <= i < |s| ensures !above(s[i], e) { assert i < |s| - 1 ==> !above(s[i], s[|s| - 1]); }
  }

  lemma {:induction false} FilterInsertedBefore<T(!new)>(s: seq<T>, e: T, above: (T, T) -> bool, keep: T -> bool)
    requires StrictOrder(above) && Ascending(s, above) && s != [] && above(s[|s| - 1], e)
    ensures Filter(Inserted(s, e, above), keep)
         == if keep(e) then Inserted(Filter(s, keep), e, above) else Filter(s, keep)
    decreases |s|, 0
  {
    var rest, last := s[..|s| - 1], s[|s| - 1];
    FilterInserted(rest, e, above, keep);
    var all := Inserted(rest, e, above) + [last];
    assert all[..|all| - 1] == Inserted(rest, e, above) && all[|all| - 1] == last;
    if keep(last) {
      var kept := Filter(rest, keep) + [last];
      assert kept[..|kept| - 1] == Filter(rest, keep);
    } else if keep(e) {
      assert Filter(s, keep) == Filter(rest, keep);
    }
  }

  /** Sorting and filtering commute. */
  lemma {:induction false} FilterSorted<T(!new)>(s: seq<T>, above: (T, T) -> bool, keep: T -> bool)
    requires StrictOrder(above)
    ensures Sorted(Filter(s, keep), above) == Filter(Sorted(s, above), keep)
  {
    if s != [] {
      var rest, last := s[..|s| - 1], s[|s| - 1];
      FilterSorted(rest, above, keep);
      SortedAscends(rest, above);
      FilterInserted(Sorted(rest, above), last, above, keep);
      assert keep(last) ==> Filter(s, keep)[..|Filter(s, keep)| - 1] == Filter(rest, keep);
    }
  }
}
