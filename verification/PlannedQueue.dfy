/**
 The queue of planned activities: a list that is re-sorted after every insertion, by
 (effective priority, creation time) descending, with Python's stable sort.
*/
module PlannedQueue {
  import opened Options
  import opened Activities
  import opened StableSort

  datatype Planned = Planned(
    activity: Activity, explicitPriority: Option<int>, createdAt: int, expiresAt: Option<int>)

  function EffectivePriority(p: Planned): int {
    if p.explicitPriority.Some? then p.explicitPriority.value else p.activity.priority
  }

  predicate Expired(p: Planned, now: int) {
    p.expiresAt.Some? && p.expiresAt.value <= now
  }

  /** `a` is sorted in front of `b`. */
  predicate Precedes(a: Planned, b: Planned) {
    EffectivePriority(a) > EffectivePriority(b)
    || (EffectivePriority(a) == EffectivePriority(b) && a.createdAt > b.createdAt)
  }

  const ORDER: (Planned, Planned) -> bool := (a, b) => Precedes(a, b)

  function ExpiredAt(now: int): Planned -> bool { p => Expired(p, now) }

  function Live(q: seq<Planned>, now: int): seq<Planned> {
    Filter(q, Not(ExpiredAt(now)))
  }

  // ---------- Operations ----------

  datatype Op =
    | Put(item: Planned)
    | Extend(items: seq<Planned>)
    | Get(now: int)
    | Look(now: int)                      // peek, items, is_empty, size and discard_expired
    | DiscardWhere(doomed: Planned -> bool)
    | Clear

  /** The queue after an operation, what it handed out as next to run, and what it dropped. */
  datatype Outcome = Outcome(queue: seq<Planned>, taken: seq<Planned>, dropped: seq<Planned>)

  function Apply(q: seq<Planned>, op: Op): Outcome {
    match op
    case Put(x) => Outcome(Sort(q + [x], ORDER), [], [])
    case Extend(xs) => Outcome(Sort(q + xs, ORDER), [], [])
    case Get(now) =>
      var live := Live(q, now);
      Outcome(if live == [] then [] else live[1..], if live == [] then [] else [live[0]], Filter(q, ExpiredAt(now)))
    case Look(now) => Outcome(Live(q, now), [], Filter(q, ExpiredAt(now)))
    case DiscardWhere(doomed) => Outcome(Filter(q, Not(doomed)), [], Filter(q, doomed))
    case Clear => Outcome([], [], q)
  }

  function Added(op: Op): seq<Planned> {
    match op case Put(x) => [x] case Extend(xs) => xs case _ => []
  }

  // ---------- The simple form: an unsorted list in order of arrival ----------

  function RemoveFirst(bag: seq<Planned>, x: Planned): seq<Planned> {
    if bag == [] then [] else if bag[0] == x then bag[1..] else [bag[0]] + RemoveFirst(bag[1..], x)
  }

  /** The first arrival that nothing in the list precedes. */
  function Best(bag: seq<Planned>): Planned
    requires bag != []
  {
    if |bag| == 1 then bag[0]
    else var b := Best(bag[..|bag| - 1]); if Precedes(bag[|bag| - 1], b) then bag[|bag| - 1] else b
  }

  function ApplyToBag(bag: seq<Planned>, op: Op): Outcome {
    match op
    case Put(x) => Outcome(bag + [x], [], [])
    case Extend(xs) => Outcome(bag + xs, [], [])
    case Get(now) =>
      var live := Live(bag, now);
      if live == [] then Outcome([], [], bag) else
      Outcome(RemoveFirst(live, Best(live)), [Best(live)], Filter(bag, ExpiredAt(now)))
    case Look(now) => Outcome(Live(bag, now), [], Filter(bag, ExpiredAt(now)))
    case DiscardWhere(doomed) => Outcome(Filter(bag, Not(doomed)), [], Filter(bag, doomed))
    case Clear => Outcome([], [], bag)
  }

  /** `q` is the sorted form of the arrivals `bag`. */
  predicate Represents(q: seq<Planned>, bag: seq<Planned>) { q == Sort(bag, ORDER) }

  // ---------- Lemmas about the sorted form ----------

  lemma {:induction false} FilterKeepsSorted(q: seq<Planned>, p: Planned -> bool)
    requires Sorted(q, ORDER)
    ensures Sorted(Filter(q, p), ORDER)
  {
    if q != [] {
      FilterKeepsSorted(q[1..], p);
      var rest := Filter(q[1..], p);
      FilterMembers(q[1..], p);
      forall k | 0 <= k < |rest| ensures !ORDER(rest[k], q[0]) {
        assert rest[k] in rest;
        assert rest[k] in q[1..];
      }
    }
  }

  lemma {:induction false} TiesOfFilter(q: seq<Planned>, y: Planned, p: Planned -> bool)
    ensures Ties(Filter(q, p), y, ORDER) == Filter(Ties(q, y, ORDER), p)
  {
    if q != [] {
      TiesOfFilter(q[1..], y, p);
      TiesConcat(if p(q[0]) then [q[0]] else [], Filter(q[1..], p), y, ORDER);
      FilterConcat(if ORDER(y, q[0]) || ORDER(q[0], y) then [] else [q[0]], Ties(q[1..], y, ORDER), p);
    }
  }

  lemma FilterOfSort(bag: seq<Planned>, p: Planned -> bool)
    ensures Filter(Sort(bag, ORDER), p) == Sort(Filter(bag, p), ORDER)
  {
    SortCorrect(bag, ORDER);
    SortCorrect(Filter(bag, p), ORDER);
    FilterKeepsSorted(Sort(bag, ORDER), p);
    forall y ensures Ties(Filter(Sort(bag, ORDER), p), y, ORDER) == Ties(Sort(Filter(bag, p), ORDER), y, ORDER) {
      TiesOfFilter(Sort(bag, ORDER), y, p);
      TiesOfFilter(bag, y, p);
    }
    SortUnique(Filter(Sort(bag, ORDER), p), Sort(Filter(bag, p), ORDER), ORDER);
  }

  lemma SortOfAppend(bag: seq<Planned>, xs: seq<Planned>)
    ensures Sort(Sort(bag, ORDER) + xs, ORDER) == Sort(bag + xs, ORDER)
  {
    SortCorrect(bag, ORDER);
    SortCorrect(bag + xs, ORDER);
    SortCorrect(Sort(bag, ORDER) + xs, ORDER);
    forall y ensures Ties(Sort(Sort(bag, ORDER) + xs, ORDER), y, ORDER) == Ties(Sort(bag + xs, ORDER), y, ORDER) {
      TiesConcat(Sort(bag, ORDER), xs, y, ORDER);
      TiesConcat(bag, xs, y, ORDER);
    }
    SortUnique(Sort(Sort(bag, ORDER) + xs, ORDER), Sort(bag + xs, ORDER), ORDER);
  }

  lemma {:induction false} BestIsHead(bag: seq<Planned>)
    requires bag != []
    ensures |Sort(bag, ORDER)| == |bag| && Sort(bag, ORDER)[0] == Best(bag)
  {
    SortCorrect(bag, ORDER);
    if |bag| > 1 {
      BestIsHead(bag[..|bag| - 1]);
    }
  }

  lemma {:induction false} TiesOfRemoveFirst(bag: seq<Planned>, x: Planned, y: Planned)
    ensures Ties(RemoveFirst(bag, x), y, ORDER) ==
            if ORDER(x, y) || ORDER(y, x) then Ties(bag, y, ORDER) else RemoveFirst(Ties(bag, y, ORDER), x)
  {
    if bag != [] && bag[0] != x {
      TiesOfRemoveFirst(bag[1..], x, y);
      TiesConcat([bag[0]], RemoveFirst(bag[1..], x), y, ORDER);
      assert ([bag[0]] + Ties(bag[1..], y, ORDER))[1..] == Ties(bag[1..], y, ORDER);
      TailTies(bag, y, ORDER);
    } else if bag != [] {
      TailTies(bag, y, ORDER);
    }
  }

  lemma SortOfRemoveBest(bag: seq<Planned>)
    requires bag != []
    ensures |Sort(bag, ORDER)| == |bag|
    ensures Sort(bag, ORDER)[1..] == Sort(RemoveFirst(bag, Best(bag)), ORDER)
  {
    var s, x := Sort(bag, ORDER), Best(bag);
    BestIsHead(bag);
    SortCorrect(bag, ORDER);
    SortCorrect(RemoveFirst(bag, x), ORDER);
    assert RemoveFirst(s, x) == s[1..];
    forall y ensures Ties(s[1..], y, ORDER) == Ties(Sort(RemoveFirst(bag, x), ORDER), y, ORDER) {
      TiesOfRemoveFirst(bag, x, y);
      TiesOfRemoveFirst(s, x, y);
    }
    SortUnique(s[1..], Sort(RemoveFirst(bag, x), ORDER), ORDER);
  }

  // ---------- Theorems ----------

  /** The sorted list behaves as the list of arrivals from which the first of the best is
      taken: same results, and the representation is kept. */
  lemma SortedRefinesArrivals(q: seq<Planned>, bag: seq<Planned>, op: Op)
    requires Represents(q, bag)
    ensures Apply(q, op).taken == ApplyToBag(bag, op).taken
    ensures multiset(Apply(q, op).dropped) == multiset(ApplyToBag(bag, op).dropped)
    ensures Represents(Apply(q, op).queue, ApplyToBag(bag, op).queue)
  {
    SortCorrect(bag, ORDER);
    match op {
      case Put(x) => SortOfAppend(bag, [x]);
      case Extend(xs) => SortOfAppend(bag, xs);
      case Get(now) => GetRefines(q, bag, now);
      case Look(now) =>
        FilterOfSort(bag, Not(ExpiredAt(now)));
        DroppedSame(bag, ExpiredAt(now));
      case DiscardWhere(doomed) =>
        FilterOfSort(bag, Not(doomed));
        DroppedSame(bag, doomed);
      case Clear =>
    }
  }

  lemma DroppedSame(bag: seq<Planned>, p: Planned -> bool)
    ensures multiset(Filter(Sort(bag, ORDER), p)) == multiset(Filter(bag, p))
  {
    FilterOfSort(bag, p);
    SortCorrect(Filter(bag, p), ORDER);
  }

  lemma GetRefines(q: seq<Planned>, bag: seq<Planned>, now: int)
    requires Represents(q, bag)
    ensures Apply(q, Get(now)).taken == ApplyToBag(bag, Get(now)).taken
    ensures multiset(Apply(q, Get(now)).dropped) == multiset(ApplyToBag(bag, Get(now)).dropped)
    ensures Represents(Apply(q, Get(now)).queue, ApplyToBag(bag, Get(now)).queue)
  {
    var live := Live(bag, now);
    DroppedSame(bag, ExpiredAt(now));
    assert Live(q, now) == Sort(live, ORDER) by { FilterOfSort(bag, Not(ExpiredAt(now))); }
    if live == [] {
      FilterNothing(bag, ExpiredAt(now));
    } else {
      BestIsHead(live);
      SortOfRemoveBest(live);
    }
  }

  /** After every operation of every run the list is ordered. */
  ghost predicate IsRun(qs: seq<seq<Planned>>, ops: seq<Op>) {
    && |qs| == |ops| + 1
    && qs[0] == []
    && forall i: nat | i < |ops| :: StepAt(qs, ops, i)
  }

  ghost predicate StepAt(qs: seq<seq<Planned>>, ops: seq<Op>, i: nat)
    requires |qs| == |ops| + 1 && i < |ops|
  {
    qs[i + 1] == Apply(qs[i], ops[i]).queue
  }

  /** By explicit priority, or else the activity's, and then by creation time, the latest first. */
  predicate NotBehind(p: Planned, q: Planned) {
    var x := if p.explicitPriority.None? then p.activity.priority else p.explicitPriority.value;
    var y := if q.explicitPriority.None? then q.activity.priority else q.explicitPriority.value;
    y < x || (y == x && q.createdAt <= p.createdAt)
  }


  lemma {:induction false} AlwaysOrdered(qs: seq<seq<Planned>>, ops: seq<Op>, i: nat)
    requires IsRun(qs, ops) && i < |qs|
    ensures Sorted(qs[i], ORDER)
    ensures forall a, b | 0 <= a < b < |qs[i]| :: NotBehind(qs[i][a], qs[i][b])
  {
    if i > 0 {
      AlwaysOrdered(qs, ops, i - 1);
      assert StepAt(qs, ops, i - 1);
      match ops[i - 1] {
        case Put(x) => SortCorrect(qs[i - 1] + [x], ORDER);
        case Extend(xs) => SortCorrect(qs[i - 1] + xs, ORDER);
        case Get(now) => FilterKeepsSorted(qs[i - 1], Not(ExpiredAt(now)));
        case Look(now) => FilterKeepsSorted(qs[i - 1], Not(ExpiredAt(now)));
        case DiscardWhere(doomed) => FilterKeepsSorted(qs[i - 1], Not(doomed));
        case Clear =>
      }
    }
  }

  /** What `get` hands out at any point of a run has not expired and nothing unexpired in the
      queue goes before it; it hands out something exactly when something is unexpired. */
  lemma GetIsMaximal(qs: seq<seq<Planned>>, ops: seq<Op>, i: nat)
    requires IsRun(qs, ops) && i < |ops| && ops[i].Get?
    ensures Apply(qs[i], ops[i]).taken == [] <==> forall p | p in qs[i] :: Expired(p, ops[i].now)
    ensures forall x | x in Apply(qs[i], ops[i]).taken ::
              x in qs[i] && !Expired(x, ops[i].now)
              && forall p | p in qs[i] && !Expired(p, ops[i].now) :: NotBehind(x, p)
  {
    var now := ops[i].now;
    var live := Live(qs[i], now);
    FilterMembers(qs[i], Not(ExpiredAt(now)));
    AlwaysOrdered(qs, ops, i);
    FilterKeepsSorted(qs[i], Not(ExpiredAt(now)));
    if live != [] {
      assert live[0] in live;
      forall p | p in qs[i] && !Expired(p, now) ensures !Precedes(p, live[0]) {
        assert p in live;
        var k :| 0 <= k < |live| && live[k] == p;
        if k > 0 { assert !ORDER(live[k], live[0]); }
      }
    } else {
      forall p | p in qs[i] ensures Expired(p, now) {
        assert p !in live;
      }
    }
  }

  /** One operation neither loses nor invents an item. */
  lemma StepConserves(q: seq<Planned>, op: Op)
    ensures multiset(q) + multiset(Added(op)) == multiset(Apply(q, op).queue) + Gone(Apply(q, op))
  {
    match op {
      case Put(x) => PutConserves(q, [x]);
      case Extend(xs) => PutConserves(q, xs);
      case Get(now) => GetConserves(q, now);
      case Look(now) => SplitConserves(q, ExpiredAt(now));
      case DiscardWhere(doomed) => SplitConserves(q, doomed);
      case Clear =>
    }
  }

  lemma PutConserves(q: seq<Planned>, xs: seq<Planned>)
    ensures multiset(Sort(q + xs, ORDER)) == multiset(q) + multiset(xs)
  {
    SortCorrect(q + xs, ORDER);
  }

  lemma SplitConserves(q: seq<Planned>, doomed: Planned -> bool)
    ensures multiset(q) == multiset(Filter(q, Not(doomed))) + multiset(Filter(q, doomed))
  {
    FilterSplits(q, doomed);
  }

  lemma GetConserves(q: seq<Planned>, now: int)
    ensures multiset(q) == multiset(Apply(q, Get(now)).queue) + Gone(Apply(q, Get(now)))
  {
    SplitConserves(q, ExpiredAt(now));
    var live := Live(q, now);
    if live != [] { HeadAndTail(live); }
  }

  lemma HeadAndTail(q: seq<Planned>)
    requires q != []
    ensures multiset(q) == multiset([q[0]]) + multiset(q[1..])
  {
    assert q == [q[0]] + q[1..];
  }

  /** What left the queue in one operation. */
  function Gone(o: Outcome): multiset<Planned> {
    multiset(o.taken) + multiset(o.dropped)
  }

  /** Everything added, handed out and dropped by the first `n` operations. */
  function AllAdded(ops: seq<Op>, n: nat): multiset<Planned>
    requires n <= |ops|
  {
    if n == 0 then multiset{} else AllAdded(ops, n - 1) + multiset(Added(ops[n - 1]))
  }

  function AllGone(qs: seq<seq<Planned>>, ops: seq<Op>, n: nat): multiset<Planned>
    requires n <= |ops| && |qs| == |ops| + 1
  {
    if n == 0 then multiset{}
    else AllGone(qs, ops, n - 1) + Gone(Apply(qs[n - 1], ops[n - 1]))
  }

  predicate Accounted(added: multiset<Planned>, gone: multiset<Planned>, q: seq<Planned>) {
    added == gone + multiset(q)
  }

  /** Over any run: everything put was returned, expired, discarded or cleared, or is still there. */
  lemma {:induction false} RunConserves(qs: seq<seq<Planned>>, ops: seq<Op>, n: nat)
    requires IsRun(qs, ops) && n <= |ops|
    ensures Accounted(AllAdded(ops, n), AllGone(qs, ops, n), qs[n])
  {
    if n > 0 {
      RunConserves(qs, ops, n - 1);
      assert StepAt(qs, ops, n - 1);
      Balance(qs[n - 1], ops[n - 1], qs[n], AllAdded(ops, n - 1), AllAdded(ops, n), AllGone(qs, ops, n - 1), AllGone(qs, ops, n));
    }
  }

  /** If what came in so far is accounted for, it still is after one more operation. */
  lemma Balance(q: seq<Planned>, op: Op, r: seq<Planned>, added: multiset<Planned>, more: multiset<Planned>,
                gone: multiset<Planned>, further: multiset<Planned>)
    requires Accounted(added, gone, q) && r == Apply(q, op).queue
    requires more == added + multiset(Added(op)) && further == gone + Gone(Apply(q, op))
    ensures Accounted(more, further, r)
  {
    StepConserves(q, op);
    Regroup(multiset(q), multiset(Added(op)), multiset(r), Gone(Apply(q, op)), added, gone);
  }

  lemma Regroup(before: multiset<Planned>, put: multiset<Planned>, after: multiset<Planned>, out: multiset<Planned>,
                added: multiset<Planned>, gone: multiset<Planned>)
    requires before + put == after + out && added == gone + before
    ensures added + put == gone + out + after
  {
    assert added + put == gone + (before + put);
  }

  // ---------- The queue object ----------

  class PlannedActivityQueue {
    var items: seq<Planned>

    constructor ()
      ensures items == []
    {
      items := [];
    }

    method SortLocked()
      modifies this
      ensures items == Sort(old(items), ORDER) && Sorted(items, ORDER)
    {
      SortCorrect(items, ORDER);
      items := Sort(items, ORDER);
    }

    method PutItem(x: Planned)
      modifies this
      ensures items == Apply(old(items), Put(x)).queue && Sorted(items, ORDER)
    {
      items := items + [x];
      SortLocked();
    }

    method ExtendWith(xs: seq<Planned>)
      modifies this
      ensures items == Apply(old(items), Extend(xs)).queue && Sorted(items, ORDER)
    {
      items := items + xs;
      SortLocked();
    }

    method DiscardExpired(now: int) returns (expired: seq<Planned>)
      modifies this
      ensures items == Live(old(items), now) && expired == Filter(old(items), ExpiredAt(now))
    {
      var active := [];
      expired := [];
      for i := 0 to |items|
        invariant items == old(items)
        invariant active == Live(items[..i], now)
        invariant expired == Filter(items[..i], ExpiredAt(now))
      {
        FilterStep(items, i, Not(ExpiredAt(now)));
        FilterStep(items, i, ExpiredAt(now));
        if Expired(items[i], now) { expired := expired + [items[i]]; } else { active := active + [items[i]]; }
      }
      assert items[..|items|] == items;
      items := active;
    }

    method Next(now: int) returns (r: Option<Planned>)
      modifies this
      ensures items == Apply(old(items), Get(now)).queue
      ensures Apply(old(items), Get(now)).taken == if r.Some? then [r.value] else []
    {
      var expired := DiscardExpired(now);
      if items == [] { return None; }
      r := Some(items[0]);
      items := items[1..];
    }

    /** `items[0]` if there is one: the item the next `get` at the same time would return. */
    method Peek(now: int) returns (r: Option<Planned>)
      modifies this
      ensures items == Live(old(items), now)
      ensures Apply(items, Get(now)).taken == if r.Some? then [r.value] else []
    {
      var expired := DiscardExpired(now);
      FilterTwice(old(items), Not(ExpiredAt(now)));
      r := if items == [] then None else Some(items[0]);
    }

    method Size(now: int) returns (n: nat)
      modifies this
      ensures items == Live(old(items), now) && n == |items|
    {
      var expired := DiscardExpired(now);
      n := |items|;
    }

    method DiscardItems(doomed: Planned -> bool) returns (discarded: seq<Planned>)
      modifies this
      ensures items == Apply(old(items), DiscardWhere(doomed)).queue
      ensures discarded == Apply(old(items), DiscardWhere(doomed)).dropped
    {
      discarded := [];
      var retained := [];
      for i := 0 to |items|
        invariant items == old(items)
        invariant discarded == Filter(items[..i], doomed)
        invariant retained == Filter(items[..i], Not(doomed))
      {
        FilterStep(items, i, doomed);
        FilterStep(items, i, Not(doomed));
        if doomed(items[i]) { discarded := discarded + [items[i]]; } else { retained := retained + [items[i]]; }
      }
      assert items[..|items|] == items;
      items := retained;
    }

    method ClearAll()
      modifies this
      ensures items == []
    {
      items := [];
    }
  }
}
