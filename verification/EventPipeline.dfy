/**
 From published events to the order in which the runtime handles them: the event buffer,
 which keeps only the latest event of each replace key, and the priority queue behind it.
*/
module EventPipeline {
  import opened Options
  import opened Activities
  import opened StableSort

  // ---------- What a drain means, as a function of everything put since the last clear ----------

  const UNKEYED: Event -> bool := (e: Event) => e.replaceKey.None?

  function HasKey(k: string): Event -> bool { (e: Event) => e.replaceKey == Some(k) }

  /** The keys of the log, by first occurrence. */
  function Keys(log: seq<Event>): seq<string> {
    if log == [] then []
    else
      var before, e := Keys(log[..|log| - 1]), log[|log| - 1];
      if e.replaceKey.None? || e.replaceKey.value in before then before else before + [e.replaceKey.value]
  }

  /** The last event with key `k`. */
  function Latest(log: seq<Event>, k: string): Event
    requires k in Keys(log)
  {
    var e := log[|log| - 1];
    if e.replaceKey == Some(k) then e else Latest(log[..|log| - 1], k)
  }

  function LatestOfEach(log: seq<Event>): seq<Event> {
    seq(|Keys(log)|, i requires 0 <= i < |Keys(log)| => Latest(log, Keys(log)[i]))
  }

  function Drained(log: seq<Event>): seq<Event> {
    Filter(log, UNKEYED) + LatestOfEach(log)
  }

  lemma {:induction false} KeysDistinct(log: seq<Event>)
    ensures forall i, j | 0 <= i < j < |Keys(log)| :: Keys(log)[i] != Keys(log)[j]
    ensures forall k :: k in Keys(log) <==> exists i | 0 <= i < |log| :: log[i].replaceKey == Some(k)
  {
    if log != [] {
      var front, e := log[..|log| - 1], log[|log| - 1];
      KeysDistinct(front);
      forall k ensures k in Keys(log) <==> exists i | 0 <= i < |log| :: log[i].replaceKey == Some(k) {
        if k in Keys(front) {
          var i :| 0 <= i < |front| && front[i].replaceKey == Some(k);
          assert log[i].replaceKey == Some(k);
        }
        if i :| 0 <= i < |log| && log[i].replaceKey == Some(k) {
          assert i < |front| ==> front[i].replaceKey == Some(k);
        }
      }
    }
  }

  lemma {:induction false} LatestIsLast(log: seq<Event>, k: string) returns (i: nat)
    requires k in Keys(log)
    ensures i < |log| && log[i] == Latest(log, k) && log[i].replaceKey == Some(k)
    ensures forall j | i < j < |log| :: log[j].replaceKey != Some(k)
  {
    if log[|log| - 1].replaceKey == Some(k) {
      i := |log| - 1;
    } else {
      i := LatestIsLast(log[..|log| - 1], k);
    }
  }

  lemma KeyOfEach(log: seq<Event>)
    ensures forall i | 0 <= i < |Keys(log)| :: LatestOfEach(log)[i].replaceKey == Some(Keys(log)[i])
  {
    forall i | 0 <= i < |Keys(log)| ensures LatestOfEach(log)[i].replaceKey == Some(Keys(log)[i]) {
      var at := LatestIsLast(log, Keys(log)[i]);
    }
  }

  /** No unkeyed event is lost, added or reordered. */
  lemma DrainKeepsUnkeyed(log: seq<Event>)
    ensures Filter(Drained(log), UNKEYED) == Filter(log, UNKEYED)
  {
    KeyOfEach(log);
    FilterConcat(Filter(log, UNKEYED), LatestOfEach(log), UNKEYED);
    FilterTwice(log, UNKEYED);
    FilterNone(LatestOfEach(log), UNKEYED);
  }

  /** Each key that was put comes out exactly once, with its last event. */
  lemma DrainKeepsLatest(log: seq<Event>, k: string)
    requires k in Keys(log)
    ensures Filter(Drained(log), HasKey(k)) == [Latest(log, k)]
  {
    KeyOfEach(log);
    KeysDistinct(log);
    FilterMembers(log, UNKEYED);
    FilterConcat(Filter(log, UNKEYED), LatestOfEach(log), HasKey(k));
    forall j | 0 <= j < |Filter(log, UNKEYED)| ensures !HasKey(k)(Filter(log, UNKEYED)[j]) {
      assert Filter(log, UNKEYED)[j] in Filter(log, UNKEYED);
    }
    FilterNone(Filter(log, UNKEYED), HasKey(k));
    var i :| 0 <= i < |Keys(log)| && Keys(log)[i] == k;
    FilterOne(LatestOfEach(log), HasKey(k), i);
  }

  lemma {:induction false} FilterNone<T>(xs: seq<T>, p: T -> bool)
    requires forall i | 0 <= i < |xs| :: !p(xs[i])
    ensures Filter(xs, p) == []
  {
    if xs != [] { FilterNone(xs[1..], p); }
  }

  lemma {:induction false} FilterOne<T>(xs: seq<T>, p: T -> bool, i: nat)
    requires i < |xs| && forall j | 0 <= j < |xs| :: p(xs[j]) <==> j == i
    ensures Filter(xs, p) == [xs[i]]
  {
    if i == 0 { FilterNone(xs[1..], p); } else { FilterOne(xs[1..], p, i - 1); }
  }

  // ---------- The buffer ----------

  class EventBuffer {
    var normal: seq<Event>
    var latest: map<string, Event>
    var order: seq<string>                // insertion order of `latest`
    ghost var log: seq<Event>             // everything put since the last clear

    ghost predicate Valid()
      reads this
    {
      && normal == Filter(log, UNKEYED)
      && order == Keys(log)
      && (forall k :: k in latest <==> k in order)
      && (forall k | k in latest :: latest[k] == Latest(log, k))
    }

    constructor ()
      ensures Valid() && log == []
    {
      normal, latest, order, log := [], map[], [], [];
    }

    method Put(e: Event)
      requires Valid()
      modifies this
      ensures Valid() && log == old(log) + [e]
    {
      FilterConcat(log, [e], UNKEYED);
      assert (log + [e])[..|log|] == log;
      log := log + [e];
      if e.replaceKey.Some? {
        if e.replaceKey.value !in latest { order := order + [e.replaceKey.value]; }
        latest := latest[e.replaceKey.value := e];
        return;
      }
      normal := normal + [e];
    }

    method Drain() returns (events: seq<Event>)
      requires Valid()
      modifies this
      ensures Valid() && log == [] && events == Drained(old(log))
    {
      var keys, values := order, latest;
      events := normal + seq(|keys|, i requires 0 <= i < |keys| && keys[i] in values => values[keys[i]]);
      assert events == Drained(log);
      Clear();
    }

    method Clear()
      modifies this
      ensures Valid() && log == []
    {
      normal, latest, order, log := [], map[], [], [];
    }

    method IsEmpty() returns (empty: bool)
      requires Valid()
      ensures empty <==> log == []
    {
      empty := normal == [] && |order| == 0;
      KeysDistinct(log);
      FilterMembers(log, UNKEYED);
      if log != [] {
        assert UNKEYED(log[0]) ==> log[0] in normal;
        assert !UNKEYED(log[0]) ==> log[0].replaceKey == Some(log[0].replaceKey.value);
      }
    }
  }

  // ---------- The priority queue ----------

  datatype Queued = Queued(sortPriority: int, sequence: nat, event: Event)

  predicate Before(a: Queued, b: Queued) {
    a.sortPriority < b.sortPriority || (a.sortPriority == b.sortPriority && a.sequence < b.sequence)
  }

  const HIGHER: (Event, Event) -> bool := (a: Event, b: Event) => a.priority > b.priority

  /** `heappush`; the heap is kept as a sorted sequence, of which only the head is read. */
  function Push(q: seq<Queued>, x: Queued): seq<Queued> {
    if q == [] then [x] else if Before(x, q[0]) then [x] + q else [q[0]] + Push(q[1..], x)
  }

  function Events(q: seq<Queued>): seq<Event> {
    seq(|q|, i requires 0 <= i < |q| => q[i].event)
  }

  /** Entries carry their event's negated priority and a number already given out. */
  predicate Numbered(q: seq<Queued>, n: nat) {
    forall i | 0 <= i < |q| :: q[i].sequence < n && q[i].sortPriority == -q[i].event.priority
  }

  lemma {:induction false} PushIsInsert(q: seq<Queued>, e: Event, n: nat)
    requires Numbered(q, n)
    ensures Events(Push(q, Queued(-e.priority, n, e))) == Insert(Events(q), e, HIGHER)
    ensures Numbered(Push(q, Queued(-e.priority, n, e)), n + 1)
  {
    if q != [] {
      PushIsInsert(q[1..], e, n);
      assert Events(q)[1..] == Events(q[1..]);
      var x := Queued(-e.priority, n, e);
      if Before(x, q[0]) {
        assert Events([x] + q) == [e] + Events(q);
      } else {
        assert Events([q[0]] + Push(q[1..], x)) == [q[0].event] + Events(Push(q[1..], x));
      }
    }
  }

  lemma HeapTail(q: seq<Queued>, n: nat)
    requires q != [] && Numbered(q, n)
    ensures Numbered(q[1..], n) && Events(q) == [q[0].event] + Events(q[1..])
  {
  }

  class EventQueue {
    var heap: seq<Queued>
    var counter: nat
    ghost var waiting: seq<Event>         // events put and not yet taken, in the order put

    ghost predicate Valid()
      reads this
    {
      Numbered(heap, counter) && Events(heap) == Sort(waiting, HIGHER)
    }

    constructor ()
      ensures Valid() && waiting == []
    {
      heap, counter, waiting := [], 0, [];
    }

    method Put(e: Event)
      requires Valid()
      modifies this
      ensures Valid() && waiting == old(waiting) + [e]
    {
      PushIsInsert(heap, e, counter);
      heap := Push(heap, Queued(-e.priority, counter, e));
      counter := counter + 1;
      waiting := waiting + [e];
      assert waiting[..|waiting| - 1] == old(waiting);
    }

    /** Takes the earliest put of the events with the highest priority. */
    method Get() returns (e: Event)
      requires Valid() && waiting != []
      modifies this
      ensures Valid()
      ensures [e] + Sort(waiting, HIGHER) == Sort(old(waiting), HIGHER)
      ensures exists i | 0 <= i < |old(waiting)| ::
                && old(waiting)[i] == e && waiting == old(waiting)[..i] + old(waiting)[i + 1..]
                && (forall j | 0 <= j < |old(waiting)| :: old(waiting)[j].priority <= e.priority)
                && (forall j | 0 <= j < i :: old(waiting)[j].priority < e.priority)
    {
      ghost var was := waiting;
      ghost var i := FirstHighest(waiting);
      TakeFirst(waiting, i);
      assert heap != [] && Events(heap)[0] == waiting[i] by { assert |Events(heap)| == |heap|; }
      e := heap[0].event;
      HeapTail(heap, counter);
      heap := heap[1..];
      waiting := was[..i] + was[i + 1..];
      assert was[i] == e;
      assert Events(heap) == ([e] + Events(heap))[1..] == ([e] + Sort(waiting, HIGHER))[1..] == Sort(waiting, HIGHER);
    }

    method Empty() returns (empty: bool)
      requires Valid()
      ensures empty <==> waiting == []
    {
      SortCorrect(waiting, HIGHER);
      empty := heap == [];
    }
  }

  lemma {:induction false} FirstHighest(es: seq<Event>) returns (i: nat)
    requires es != []
    ensures i < |es|
    ensures forall j | 0 <= j < |es| :: es[j].priority <= es[i].priority
    ensures forall j | 0 <= j < i :: es[j].priority < es[i].priority
  {
    if |es| == 1 { return 0; }
    i := FirstHighest(es[..|es| - 1]);
    if es[|es| - 1].priority > es[i].priority { i := |es| - 1; }
  }

  /** Taking out the first of the highest takes the head off the sorted list. */
  lemma {:induction false} TakeFirst(es: seq<Event>, i: nat)
    requires i < |es|
    requires forall j | 0 <= j < |es| :: es[j].priority <= es[i].priority
    requires forall j | 0 <= j < i :: es[j].priority < es[i].priority
    ensures Sort(es, HIGHER) == [es[i]] + Sort(es[..i] + es[i + 1..], HIGHER)
  {
    var n := |es| - 1;
    var front, last := es[..n], es[n];
    if i == n {
      assert es[..i] + es[i + 1..] == front;
      InsertFirst(front, last);
    } else {
      TakeFirst(front, i);
      var others := front[..i] + front[i + 1..];
      assert es[..i] + es[i + 1..] == others + [last];
      InsertBehind(es[i], Sort(others, HIGHER), last);
      SortSnoc(others, last);
    }
  }

  lemma SortSnoc(es: seq<Event>, e: Event)
    ensures Sort(es + [e], HIGHER) == Insert(Sort(es, HIGHER), e, HIGHER)
  {
    assert (es + [e])[..|es|] == es;
  }

  lemma InsertBehind(h: Event, es: seq<Event>, e: Event)
    requires e.priority <= h.priority
    ensures Insert([h] + es, e, HIGHER) == [h] + Insert(es, e, HIGHER)
  {
    assert ([h] + es)[1..] == es;
  }

  lemma InsertFirst(front: seq<Event>, last: Event)
    requires forall j | 0 <= j < |front| :: front[j].priority < last.priority
    ensures Insert(Sort(front, HIGHER), last, HIGHER) == [last] + Sort(front, HIGHER)
  {
    SortCorrect(front, HIGHER);
    var s := Sort(front, HIGHER);
    assert s != [] ==> s[0] in s;
  }

  // ---------- Publishing ----------

  /** The last part of `publish_events`: the accepted events go through the buffer into the queue. */
  method PublishEvents(buffer: EventBuffer, queue: EventQueue, events: seq<Event>)
    requires buffer.Valid() && queue.Valid()
    modifies buffer, queue
    ensures buffer.Valid() && queue.Valid() && buffer.log == []
    ensures queue.waiting == old(queue.waiting) + Drained(old(buffer.log) + events)
  {
    for i := 0 to |events|
      invariant buffer.Valid() && queue.Valid()
      invariant buffer.log == old(buffer.log) + events[..i]
      invariant queue.waiting == old(queue.waiting)
    {
      buffer.Put(events[i]);
    }
    assert events[..|events|] == events;
    var drained := buffer.Drain();
    EnqueueAll(queue, drained);
  }

  method EnqueueAll(queue: EventQueue, events: seq<Event>)
    requires queue.Valid()
    modifies queue
    ensures queue.Valid() && queue.waiting == old(queue.waiting) + events
  {
    for i := 0 to |events|
      invariant queue.Valid()
      invariant queue.waiting == old(queue.waiting) + events[..i]
    {
      queue.Put(events[i]);
    }
    assert events[..|events|] == events;
  }

  /** Emptying the queue. */
  method TakeAll(queue: EventQueue) returns (events: seq<Event>)
    requires queue.Valid()
    modifies queue
    ensures queue.Valid() && queue.waiting == []
    ensures events == Sort(old(queue.waiting), HIGHER)
  {
    events := [];
    while true
      invariant queue.Valid()
      invariant events + Sort(queue.waiting, HIGHER) == Sort(old(queue.waiting), HIGHER)
      decreases |queue.waiting|
    {
      var empty := queue.Empty();
      if empty { break; }
      var e := queue.Get();
      events := events + [e];
    }
  }

  /** The whole pipeline: what is handled, and in which order, for any published events. */
  lemma PipelineOrder(log: seq<Event>)
    ensures var handled := Sort(Drained(log), HIGHER);
      && Sorted(handled, HIGHER)
      && multiset(Filter(log, UNKEYED)) <= multiset(handled)
      && (forall e :: e in handled <==> (e in log && UNKEYED(e)) || exists k :: k in Keys(log) && e == Latest(log, k))
      && (forall e :: Ties(handled, e, HIGHER) == Ties(Filter(log, UNKEYED), e, HIGHER) + Ties(LatestOfEach(log), e, HIGHER))
  {
    SortCorrect(Drained(log), HIGHER);
    FilterMembers(log, UNKEYED);
    forall e ensures Ties(Drained(log), e, HIGHER) == Ties(Filter(log, UNKEYED), e, HIGHER) + Ties(LatestOfEach(log), e, HIGHER) {
      TiesConcat(Filter(log, UNKEYED), LatestOfEach(log), e, HIGHER);
    }
    forall k | k in Keys(log) ensures Latest(log, k) in LatestOfEach(log) {
      var i :| 0 <= i < |Keys(log)| && Keys(log)[i] == k;
      assert LatestOfEach(log)[i] == Latest(log, k);
    }
    forall e | e in LatestOfEach(log) ensures exists k :: k in Keys(log) && e == Latest(log, k) {
      var i :| 0 <= i < |LatestOfEach(log)| && LatestOfEach(log)[i] == e;
      assert Keys(log)[i] in Keys(log);
    }
  }
}
