/**
 Python's stable `sort`, for any strict weak order, and what its result means.
*/
module StableSort {

  /** `lt` is irreflexive, transitive, and "neither before the other" is an equivalence. */
  ghost predicate StrictWeak<T(!new)>(lt: (T, T) -> bool) {
    && (forall a :: !lt(a, a))
    && (forall a, b, c | lt(a, b) && lt(b, c) :: lt(a, c))
    && (forall a, b, c | lt(a, c) :: lt(a, b) || lt(b, c))
  }

  ghost predicate Sorted<T(!new)>(xs: seq<T>, lt: (T, T) -> bool) {
    forall i, j | 0 <= i < j < |xs| :: !lt(xs[j], xs[i])
  }

  /** Put `x` before the first element it precedes, so after its equals. */
  function Insert<T>(xs: seq<T>, x: T, lt: (T, T) -> bool): seq<T> {
    if xs == [] then [x]
    else if lt(x, xs[0]) then [x] + xs
    else [xs[0]] + Insert(xs[1..], x, lt)
  }

  function Sort<T>(xs: seq<T>, lt: (T, T) -> bool): seq<T> {
    if xs == [] then [] else Insert(Sort(xs[..|xs| - 1], lt), xs[|xs| - 1], lt)
  }

  /** The elements of `xs` that tie with `x`, in order. */
  function Ties<T>(xs: seq<T>, x: T, lt: (T, T) -> bool): seq<T> {
    if xs == [] then [] else (if lt(x, xs[0]) || lt(xs[0], x) then [] else [xs[0]]) + Ties(xs[1..], x, lt)
  }

  lemma TiesCons<T>(h: T, t: seq<T>, x: T, lt: (T, T) -> bool)
    ensures Ties([h] + t, x, lt) == (if lt(x, h) || lt(h, x) then [] else [h]) + Ties(t, x, lt)
  {
    assert ([h] + t)[1..] == t;
  }

  lemma {:induction false} TiesConcat<T>(xs: seq<T>, ys: seq<T>, x: T, lt: (T, T) -> bool)
    ensures Ties(xs + ys, x, lt) == Ties(xs, x, lt) + Ties(ys, x, lt)
  {
    if xs == [] {
      assert xs + ys == ys;
    } else {
      var h, t := xs[0], xs[1..];
      assert xs == [h] + t;
      assert xs + ys == [h] + (t + ys);
      TiesConcat(t, ys, x, lt);
      TiesCons(h, t, x, lt);
      TiesCons(h, t + ys, x, lt);
    }
  }

  lemma {:induction false} InsertMembers<T>(xs: seq<T>, x: T, lt: (T, T) -> bool)
    ensures multiset(Insert(xs, x, lt)) == multiset(xs) + multiset{x}
    ensures |Insert(xs, x, lt)| == |xs| + 1
    ensures forall y :: y in Insert(xs, x, lt) <==> y == x || y in xs
  {
    if xs != [] {
      assert xs == [xs[0]] + xs[1..];
      if !lt(x, xs[0]) { InsertMembers(xs[1..], x, lt); }
    }
  }

  lemma {:induction false} InsertSorted<T(!new)>(xs: seq<T>, x: T, lt: (T, T) -> bool)
    requires StrictWeak(lt) && Sorted(xs, lt)
    ensures Sorted(Insert(xs, x, lt), lt)
  {
    if xs != [] && !lt(x, xs[0]) {
      InsertSorted(xs[1..], x, lt);
      InsertMembers(xs[1..], x, lt);
      var rest := Insert(xs[1..], x, lt);
      forall k | 0 <= k < |rest| ensures !lt(rest[k], xs[0]) {
        assert rest[k] in rest;
        assert rest[k] == x || rest[k] in xs[1..];
      }
    }
  }

  lemma {:induction false} InsertStable<T(!new)>(xs: seq<T>, x: T, y: T, lt: (T, T) -> bool)
    requires StrictWeak(lt) && Sorted(xs, lt)
    ensures Ties(Insert(xs, x, lt), y, lt) == Ties(xs, y, lt) + Ties([x], y, lt)
  {
    if xs != [] {
      if lt(x, xs[0]) {
        TiesCons(x, xs, y, lt);
        if !lt(x, y) && !lt(y, x) { NoTies(xs, x, y, lt); }
      } else {
        InsertStable(xs[1..], x, y, lt);
        TiesCons(xs[0], Insert(xs[1..], x, lt), y, lt);
        TiesCons(xs[0], xs[1..], y, lt);
        assert xs == [xs[0]] + xs[1..];
      }
    }
  }

  /** Nothing in a sorted list ties with what ties with something before its head. */
  lemma {:induction false} NoTies<T(!new)>(xs: seq<T>, x: T, y: T, lt: (T, T) -> bool)
    requires StrictWeak(lt) && Sorted(xs, lt) && (xs == [] || lt(x, xs[0])) && !lt(x, y) && !lt(y, x)
    ensures Ties(xs, y, lt) == []
  {
    if xs != [] {
      forall k | 0 < k < |xs| ensures lt(x, xs[k]) {
        assert !lt(xs[k], xs[0]);
      }
      NoTies(xs[1..], x, y, lt);
    }
  }

  /** The result is an ordered rearrangement that keeps the order of ties. */
  lemma {:induction false} SortCorrect<T(!new)>(xs: seq<T>, lt: (T, T) -> bool)
    requires StrictWeak(lt)
    ensures Sorted(Sort(xs, lt), lt)
    ensures multiset(Sort(xs, lt)) == multiset(xs)
    ensures |Sort(xs, lt)| == |xs|
    ensures forall y :: y in Sort(xs, lt) <==> y in xs
    ensures forall y :: Ties(Sort(xs, lt), y, lt) == Ties(xs, y, lt)
  {
    if xs != [] {
      var front, last := xs[..|xs| - 1], xs[|xs| - 1];
      SortCorrect(front, lt);
      InsertMembers(Sort(front, lt), last, lt);
      InsertSorted(Sort(front, lt), last, lt);
      assert xs == front + [last];
      forall y ensures Ties(Sort(xs, lt), y, lt) == Ties(xs, y, lt) {
        InsertStable(Sort(front, lt), last, y, lt);
        TiesConcat(front, [last], y, lt);
      }
    }
  }

  /** An ordered list with the same ties as `xs` for every element is the sorted `xs`. */
  lemma {:induction false} SortUnique<T(!new)>(xs: seq<T>, ys: seq<T>, lt: (T, T) -> bool)
    requires StrictWeak(lt) && Sorted(xs, lt) && Sorted(ys, lt)
    requires forall y :: Ties(xs, y, lt) == Ties(ys, y, lt)
    ensures xs == ys
  {
    EmptyTogether(xs, ys, lt);
    if xs != [] {
      SameHead(xs, ys, lt);
      forall y ensures Ties(xs[1..], y, lt) == Ties(ys[1..], y, lt) {
        TailTies(xs, y, lt);
        TailTies(ys, y, lt);
      }
      SortUnique(xs[1..], ys[1..], lt);
      assert xs == [xs[0]] + xs[1..] && ys == [ys[0]] + ys[1..];
    }
  }

  lemma EmptyTogether<T(!new)>(xs: seq<T>, ys: seq<T>, lt: (T, T) -> bool)
    requires StrictWeak(lt) && forall y :: Ties(xs, y, lt) == Ties(ys, y, lt)
    ensures xs == [] <==> ys == []
  {
    assert xs != [] ==> Ties(xs, xs[0], lt) != [];
    assert ys != [] ==> Ties(ys, ys[0], lt) != [];
  }

  lemma TailTies<T>(xs: seq<T>, y: T, lt: (T, T) -> bool)
    requires xs != []
    ensures Ties(xs[1..], y, lt) == Ties(xs, y, lt)[if lt(y, xs[0]) || lt(xs[0], y) then 0 else 1..]
  {
    assert Ties(xs, y, lt) == (if lt(y, xs[0]) || lt(xs[0], y) then [] else [xs[0]]) + Ties(xs[1..], y, lt);
  }

  lemma SameHead<T(!new)>(xs: seq<T>, ys: seq<T>, lt: (T, T) -> bool)
    requires StrictWeak(lt) && Sorted(xs, lt) && Sorted(ys, lt) && xs != [] && ys != []
    requires forall y :: Ties(xs, y, lt) == Ties(ys, y, lt)
    ensures xs[0] == ys[0]
  {
    var x, y := xs[0], ys[0];
    assert Ties(xs, x, lt)[0] == x && Ties(ys, y, lt)[0] == y;
    assert Ties(ys, x, lt) != [] && Ties(xs, y, lt) != [];
    if lt(x, y) { NoTies(ys, x, x, lt); }
    if lt(y, x) { NoTies(xs, y, y, lt); }
  }
}
