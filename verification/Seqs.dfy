/** Sequences as the ledger uses them: filtering, and the stable sort by timestamp that
    every derivation starts with. */
module Seqs {

  datatype Option<+T> = None | Some(value: T)

  function Last<T>(xs: seq<T>): T
    requires xs != []
  {
    xs[|xs| - 1]
  }

  /** Everything but the last element. */
  function Init<T>(xs: seq<T>): seq<T>
    requires xs != []
  {
    xs[..|xs| - 1]
  }

  function LastOption<T>(xs: seq<T>): Option<T> {
    if xs == [] then None else Some(Last(xs))
  }

  lemma SnocParts<T>(xs: seq<T>, x: T)
    ensures xs + [x] != [] && Init(xs + [x]) == xs && Last(xs + [x]) == x
  {
  }

  lemma AppendAssoc<T>(xs: seq<T>, ys: seq<T>, zs: seq<T>)
    ensures xs + ys + zs == xs + (ys + zs)
  {
  }

  lemma AppendParts<T>(xs: seq<T>, ys: seq<T>)
    requires ys != []
    ensures xs + ys != [] && Init(xs + ys) == xs + Init(ys) && Last(xs + ys) == Last(ys)
  {
  }

  function Filter<T>(xs: seq<T>, p: T -> bool): (r: seq<T>)
    ensures |r| <= |xs|
  {
    if xs == [] then []
    else if p(Last(xs)) then Filter(Init(xs), p) + [Last(xs)]
    else Filter(Init(xs), p)
  }

  lemma FilterSnoc<T>(xs: seq<T>, x: T, p: T -> bool)
    ensures Filter(xs + [x], p) == if p(x) then Filter(xs, p) + [x] else Filter(xs, p)
  {
    SnocParts(xs, x);
  }

  lemma {:induction false} FilterMembers<T>(xs: seq<T>, p: T -> bool)
    ensures forall i | 0 <= i < |Filter(xs, p)| :: Filter(xs, p)[i] in xs && p(Filter(xs, p)[i])
    ensures forall i | 0 <= i < |xs| && p(xs[i]) :: xs[i] in Filter(xs, p)
  {
    if xs != [] {
      FilterMembers(Init(xs), p);
      assert xs == Init(xs) + [Last(xs)];
    }
  }

  lemma {:induction false} FilterAppend<T>(xs: seq<T>, ys: seq<T>, p: T -> bool)
    ensures Filter(xs + ys, p) == Filter(xs, p) + Filter(ys, p)
  {
    if ys == [] {
      assert xs + ys == xs;
    } else {
      AppendParts(xs, ys);
      FilterAppend(xs, Init(ys), p);
    }
  }

  /** Where the last element kept by a filter stands. */
  lemma {:induction false} LastKept<T>(xs: seq<T>, p: T -> bool) returns (k: nat)
    requires Filter(xs, p) != []
    ensures k < |xs| && p(xs[k]) && Last(Filter(xs, p)) == xs[k]
    ensures forall j | k < j < |xs| :: !p(xs[j])
  {
    if p(Last(xs)) {
      k := |xs| - 1;
    } else {
      k := LastKept(Init(xs), p);
    }
  }

  /** A relation between kept elements, in order, holds between the elements of the filtered list. */
  lemma {:induction false} FilterPairs<T>(xs: seq<T>, p: T -> bool, r: (T, T) -> bool)
    requires forall i, j | 0 <= i < j < |xs| && p(xs[i]) && p(xs[j]) :: r(xs[i], xs[j])
    ensures forall a, b | 0 <= a < b < |Filter(xs, p)| :: r(Filter(xs, p)[a], Filter(xs, p)[b])
  {
    if xs != [] {
      FilterPairs(Init(xs), p, r);
      if p(Last(xs)) {
        var kept := Filter(Init(xs), p);
        forall a | 0 <= a < |kept| ensures r(kept[a], Last(xs)) {
          FilterMembers(Init(xs), p);
          var i :| 0 <= i < |Init(xs)| && Init(xs)[i] == kept[a];
        }
      }
    }
  }

  lemma NotKept<T>(xs: seq<T>, p: T -> bool, i: nat)
    requires i < |xs| && Filter(xs, p) == []
    ensures !p(xs[i])
  {
    FilterMembers(xs, p);
  }

  /** Filtering twice by predicates where the second implies the first is filtering once. */
  lemma {:induction false} FilterImplied<T>(xs: seq<T>, p: T -> bool, q: T -> bool)
    requires forall x <- xs :: q(x) ==> p(x)
    ensures Filter(Filter(xs, p), q) == Filter(xs, q)
  {
    if xs != [] {
      var x := Last(xs);
      assert x in xs;
      assert forall y <- Init(xs) :: y in xs;
      FilterImplied(Init(xs), p, q);
      FilterSnoc(Filter(Init(xs), p), x, q);
    }
  }

  lemma {:induction false} FilterAll<T>(xs: seq<T>, p: T -> bool)
    requires forall x <- xs :: p(x)
    ensures Filter(xs, p) == xs
  {
    if xs != [] {
      FilterAll(Init(xs), p);
    }
  }

  lemma {:induction false} FilterNone<T>(xs: seq<T>, p: T -> bool)
    requires forall x <- xs :: !p(x)
    ensures Filter(xs, p) == []
  {
    if xs != [] {
      FilterNone(Init(xs), p);
    }
  }

  /** Two predicates that agree on a sequence filter it alike. */
  lemma {:induction false} FilterSame<T>(xs: seq<T>, p: T -> bool, q: T -> bool)
    requires forall x <- xs :: p(x) == q(x)
    ensures Filter(xs, p) == Filter(xs, q)
  {
    if xs != [] {
      FilterSame(Init(xs), p, q);
    }
  }

  ghost predicate Sorted<T>(xs: seq<T>, ts: T -> int) {
    forall i, j | 0 <= i < j < |xs| :: ts(xs[i]) <= ts(xs[j])
  }

  /** Insert after every element that is no later: what makes the sort stable. */
  function Insert<T>(xs: seq<T>, x: T, ts: T -> int): (r: seq<T>)
    ensures |r| == |xs| + 1
  {
    if xs == [] || ts(Last(xs)) <= ts(x) then xs + [x] else Insert(Init(xs), x, ts) + [Last(xs)]
  }

  lemma {:induction false} InsertMembers<T>(xs: seq<T>, x: T, ts: T -> int)
    ensures multiset(Insert(xs, x, ts)) == multiset(xs) + multiset{x}
  {
    if xs != [] && ts(Last(xs)) > ts(x) {
      InsertMembers(Init(xs), x, ts);
      assert xs == Init(xs) + [Last(xs)];
    }
  }

  /** Sorted by (timestamp, position). */
  function Ordered<T>(xs: seq<T>, ts: T -> int): (r: seq<T>)
    ensures |r| == |xs|
  {
    if xs == [] then [] else Insert(Ordered(Init(xs), ts), Last(xs), ts)
  }

  lemma {:induction false} OrderedMembers<T>(xs: seq<T>, ts: T -> int)
    ensures multiset(Ordered(xs, ts)) == multiset(xs)
  {
    if xs != [] {
      OrderedMembers(Init(xs), ts);
      InsertMembers(Ordered(Init(xs), ts), Last(xs), ts);
      assert xs == Init(xs) + [Last(xs)];
    }
  }

  lemma SortedSnoc<T>(xs: seq<T>, x: T, ts: T -> int)
    requires Sorted(xs, ts)
    requires forall i | 0 <= i < |xs| :: ts(xs[i]) <= ts(x)
    ensures Sorted(xs + [x], ts)
  {
  }

  lemma {:induction false} InsertSorted<T>(xs: seq<T>, x: T, ts: T -> int)
    requires Sorted(xs, ts)
    ensures Sorted(Insert(xs, x, ts), ts)
  {
    if xs == [] || ts(Last(xs)) <= ts(x) {
      SortedSnoc(xs, x, ts);
    } else {
      var r := Insert(Init(xs), x, ts);
      InsertSorted(Init(xs), x, ts);
      InsertMembers(Init(xs), x, ts);
      forall i | 0 <= i < |r| ensures ts(r[i]) <= ts(Last(xs)) {
        assert r[i] in multiset(r);
      }
      SortedSnoc(r, Last(xs), ts);
    }
  }

  lemma {:induction false} OrderedIsSorted<T>(xs: seq<T>, ts: T -> int)
    ensures Sorted(Ordered(xs, ts), ts)
  {
    if xs != [] {
      OrderedIsSorted(Init(xs), ts);
      InsertSorted(Ordered(Init(xs), ts), Last(xs), ts);
    }
  }

  /** A sequence already in order is left as it is. */
  lemma {:induction false} OrderedIdentity<T>(xs: seq<T>, ts: T -> int)
    requires Sorted(xs, ts)
    ensures Ordered(xs, ts) == xs
  {
    if xs != [] {
      OrderedIdentity(Init(xs), ts);
      assert xs == Init(xs) + [Last(xs)];
    }
  }

  lemma {:induction false} FilterSorted<T>(xs: seq<T>, ts: T -> int, p: T -> bool)
    requires Sorted(xs, ts)
    ensures Sorted(Filter(xs, p), ts)
  {
    if xs != [] {
      FilterSorted(Init(xs), ts, p);
      if p(Last(xs)) {
        var r := Filter(Init(xs), p);
        forall i | 0 <= i < |r| ensures ts(r[i]) <= ts(Last(xs)) {
          FilterMembers(Init(xs), p);
          assert r[i] in Init(xs);
        }
        SortedSnoc(r, Last(xs), ts);
      }
    }
  }

  /** Appending what is no earlier than everything before it needs no sorting. */
  lemma InsertLast<T>(xs: seq<T>, x: T, ts: T -> int)
    requires forall i | 0 <= i < |xs| :: ts(xs[i]) <= ts(x)
    ensures Insert(xs, x, ts) == xs + [x]
  {
  }

  lemma {:induction false} InsertFilter<T>(xs: seq<T>, x: T, ts: T -> int, p: T -> bool)
    requires Sorted(xs, ts)
    ensures Filter(Insert(xs, x, ts), p) == if p(x) then Insert(Filter(xs, p), x, ts) else Filter(xs, p)
  {
    if xs == [] || ts(Last(xs)) <= ts(x) {
      FilterSnoc(xs, x, p);
      FilterMembers(xs, p);
      forall i | 0 <= i < |Filter(xs, p)| ensures ts(Filter(xs, p)[i]) <= ts(x) {
        assert Filter(xs, p)[i] in xs;
      }
      InsertLast(Filter(xs, p), x, ts);
    } else {
      InsertFilter(Init(xs), x, ts, p);
      FilterSnoc(Insert(Init(xs), x, ts), Last(xs), p);
      if p(x) && p(Last(xs)) {
        SnocParts(Filter(Init(xs), p), Last(xs));
      }
    }
  }

  /** The stable sort commutes with filtering. */
  lemma {:induction false} OrderedFilter<T>(xs: seq<T>, ts: T -> int, p: T -> bool)
    ensures Filter(Ordered(xs, ts), p) == Ordered(Filter(xs, p), ts)
  {
    if xs != [] {
      var x, o := Last(xs), Ordered(Init(xs), ts);
      OrderedFilter(Init(xs), ts, p);
      OrderedIsSorted(Init(xs), ts);
      InsertFilter(o, x, ts, p);
      assert Ordered(xs, ts) == Insert(o, x, ts);
      if p(x) {
        SnocParts(Filter(Init(xs), p), x);
        assert Ordered(Filter(xs, p), ts) == Insert(Ordered(Filter(Init(xs), p), ts), x, ts);
      }
    }
  }

  /** What holds between any two elements of a list still does after sorting it. */
  lemma {:induction false} InsertKeepsPairs<T>(xs: seq<T>, x: T, ts: T -> int, r: (T, T) -> bool)
    requires forall i, j | 0 <= i < |xs| && 0 <= j < |xs| && i != j :: r(xs[i], xs[j])
    requires forall i | 0 <= i < |xs| :: r(xs[i], x) && r(x, xs[i])
    ensures var ys := Insert(xs, x, ts);
            forall i, j | 0 <= i < |ys| && 0 <= j < |ys| && i != j :: r(ys[i], ys[j])
  {
    if xs != [] && ts(Last(xs)) > ts(x) {
      InsertKeepsPairs(Init(xs), x, ts, r);
      var ys := Insert(Init(xs), x, ts);
      InsertMembers(Init(xs), x, ts);
      forall i | 0 <= i < |ys| ensures r(ys[i], Last(xs)) && r(Last(xs), ys[i]) {
        assert ys[i] in multiset(ys);
        if ys[i] != x {
          assert ys[i] in Init(xs);
        }
      }
    }
  }

  lemma {:induction false} OrderedKeepsPairs<T>(xs: seq<T>, ts: T -> int, r: (T, T) -> bool)
    requires forall i, j | 0 <= i < |xs| && 0 <= j < |xs| && i != j :: r(xs[i], xs[j])
    ensures var ys := Ordered(xs, ts);
            forall i, j | 0 <= i < |ys| && 0 <= j < |ys| && i != j :: r(ys[i], ys[j])
  {
    if xs != [] {
      var o := Ordered(Init(xs), ts);
      OrderedKeepsPairs(Init(xs), ts, r);
      OrderedMembers(Init(xs), ts);
      forall i | 0 <= i < |o| ensures r(o[i], Last(xs)) && r(Last(xs), o[i]) {
        assert o[i] in multiset(o);
        var k :| 0 <= k < |Init(xs)| && Init(xs)[k] == o[i];
      }
      InsertKeepsPairs(o, Last(xs), ts, r);
      assert Ordered(xs, ts) == Insert(o, Last(xs), ts);
    }
  }

  function Map<T, U>(xs: seq<T>, f: T -> U): (r: seq<U>)
    ensures |r| == |xs|
    ensures forall i | 0 <= i < |xs| :: r[i] == f(xs[i])
  {
    seq(|xs|, i requires 0 <= i < |xs| => f(xs[i]))
  }

  function Max(x: int, y: int): int {
    if x < y then y else x
  }

  function Min(x: int, y: int): int {
    if x < y then x else y
  }
}
