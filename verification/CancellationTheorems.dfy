/** What the cancellation protocol guarantees in every interleaving. */
module CancellationTheorems {
  import opened Options
  import opened Activities
  import opened StableSort
  import opened PlannedQueue
  import opened CancellationProtocol
  import Manager = ActivityManagement
  import ActivityTheorems

  // ---------- Invariants ----------

  predicate Queued(q: seq<Planned>, id: nat) {
    exists i :: 0 <= i < |q| && Id(q[i]) == id
  }

  predicate DistinctIds(q: seq<Planned>) {
    forall i, j | 0 <= i < j < |q| :: Id(q[i]) != Id(q[j])
  }

  predicate InFlight(p: Planner, id: nat) { p.Holding? && Id(p.item) == id }

  /** In how many places a planned activity is. */
  function Places(s: State, id: nat): nat {
    (if InFlight(s.planner, id) then 1 else 0) + (if Queued(s.queue, id) then 1 else 0)
    + (if id in s.rejected then 1 else 0) + (if id in s.discarded then 1 else 0) + (if id in s.popped then 1 else 0)
  }

  /** Every planned activity is in exactly one place: with the planner, in the queue, rejected
      by the planner, discarded from the queue, or popped by the executor. */
  ghost predicate PlaceInv(s: State) {
    && DistinctIds(s.queue)
    && (forall id :: Places(s, id) == if id in s.read then 1 else 0)
  }

  /** The item is one the manager knows, with its kind, and never expires. */
  predicate Known(m: Manager.Manager, read: map<nat, nat>, p: Planned) {
    p.expiresAt.None? && Id(p) in read && Id(p) in m.acts && m.acts[Id(p)].kind == p.activity.kind
  }

  predicate AllKnown(m: Manager.Manager, read: map<nat, nat>, q: seq<Planned>) {
    forall p | p in q :: Known(m, read, p)
  }

  predicate PlannerKnown(m: Manager.Manager, read: map<nat, nat>, p: Planner) {
    p.Holding? || p.Rejecting? ==> Known(m, read, p.item)
  }

  predicate UserKnown(m: Manager.Manager, read: map<nat, nat>, u: User) {
    u.Canceling? ==> AllKnown(m, read, u.rest)
  }

  predicate ExecutorKnown(m: Manager.Manager, read: map<nat, nat>, e: Executor, popped: set<nat>) {
    !e.Waiting? ==> Known(m, read, e.item) && Id(e.item) in popped
  }

  ghost predicate KnownInv(s: State) {
    && Manager.Inv(s.m)
    && (forall id | id in s.read :: id in s.m.acts)
    && AllKnown(s.m, s.read, s.queue)
    && PlannerKnown(s.m, s.read, s.planner)
    && UserKnown(s.m, s.read, s.user)
    && ExecutorKnown(s.m, s.read, s.executor, s.popped)
  }

  /** The generations read, and the sweep of the queue. */
  ghost predicate TagInv(s: State) {
    && (forall id | id in s.read :: s.read[id] <= s.generation)
    && (s.planner.Reading? ==> s.planner.generation <= s.generation)
    && (s.planner.Holding? ==> s.planner.generation <= s.generation && Id(s.planner.item) in s.read
                               && s.planner.generation == s.read[Id(s.planner.item)])
    && s.cleared <= s.generation
    && (s.user.Bumped? || s.user.Swept? <==> s.cleared < s.generation)
    && TalkIsRecent(s.queue, s.read, s.cleared)
  }

  /** Queued autonomous talk was planned for the generation `cleared` or later. */
  predicate TalkIsRecent(q: seq<Planned>, read: map<nat, nat>, cleared: nat) {
    forall p | p in q && IsTalk(p) :: Id(p) in read && read[Id(p)] >= cleared
  }

  predicate Ended(m: Manager.Manager, id: nat) { id in m.acts && Terminal(m.acts[id].status) }

  /** What was rejected or discarded is finished, or about to be cancelled. */
  ghost predicate RejectedEnd(s: State) {
    forall id | id in s.rejected :: Ended(s.m, id) || (s.planner.Rejecting? && Id(s.planner.item) == id)
  }

  /** Only autonomous talk of an older generation was rejected. */
  ghost predicate RejectedRight(s: State) {
    forall id | id in s.rejected ::
      id in s.m.acts && s.m.acts[id].kind == AutonomousTalk && id in s.read && s.read[id] < s.generation
  }

  ghost predicate DiscardedEnd(s: State) {
    forall id | id in s.discarded :: Ended(s.m, id) || (s.user.Canceling? && Queued(s.user.rest, id))
  }

  ghost predicate SubmitInv(s: State) {
    && (s.executor.Passed? ==> s.executor.checked == Some(Active))
    && (forall i | 0 <= i < |s.submissions| :: s.submissions[i].checked == Some(Active))
  }

  ghost predicate Inv(s: State) {
    KnownInv(s) && PlaceInv(s) && TagInv(s) && RejectedEnd(s) && RejectedRight(s) && DiscardedEnd(s) && SubmitInv(s)
  }

  // ---------- The manager under every move ----------

  /** The manager changes only by its own operations, so statuses only move forward. */
  lemma ManagerAdvances(s: State, v: Move)
    requires Manager.Inv(s.m) && Enabled(s, v)
    ensures Manager.Inv(Do(s, v).m) && ActivityTheorems.Advances(s.m, Do(s, v).m)
  {
    var op := OperationOf(s, v);
    if op.Some? {
      Manager.ApplyKeepsInv(s.m, op.value);
      ActivityTheorems.ApplyAdvances(s.m, op.value);
    }
  }

  /** The manager operation behind a move, if there is one. */
  function OperationOf(s: State, v: Move): (op: Option<Manager.Op>)
    requires Enabled(s, v)
    ensures op.None? ==> Do(s, v).m == s.m
    ensures op.Some? ==> Manager.Fresh(s.m, op.value) && (Do(s, v).m == Manager.Apply(s.m, op.value) || Do(s, v).m == s.m)
  {
    match v
    case Plan(e, id, _) => Some(Manager.OpHandle(e, id, true))
    case CancelRejected => Some(Manager.OpCancel(Id(s.planner.item)))
    case Prepare(e, id) => Some(Manager.OpPrepare(e, id))
    case SweepDeferred => Some(Manager.OpDiscard)
    case CancelNext => Some(Manager.OpCancel(Id(s.user.rest[0])))
    case PlanActions(succeeds) => if succeeds then None else Some(Manager.OpComplete(Id(s.executor.item)))
    case Complete => Some(Manager.OpComplete(Id(s.executor.item)))
    case Other(op) => Some(op)
    case _ => None
  }

  // ---------- Queue facts ----------

  lemma {:induction false} InsertDistinct(q: seq<Planned>, x: Planned)
    requires DistinctIds(q) && !Queued(q, Id(x))
    ensures DistinctIds(Insert(q, x, ORDER))
  {
    if q != [] && !ORDER(x, q[0]) {
      assert forall i | 0 <= i < |q[1..]| :: q[1..][i] == q[i + 1];
      InsertDistinct(q[1..], x);
      InsertMembers(q[1..], x, ORDER);
      var rest := Insert(q[1..], x, ORDER);
      forall i | 0 <= i < |rest| ensures Id(rest[i]) != Id(q[0]) {
        assert rest[i] in rest;
      }
    }
  }

  lemma {:induction false} SortDistinct(q: seq<Planned>)
    requires DistinctIds(q)
    ensures DistinctIds(Sort(q, ORDER))
  {
    if q != [] {
      var front, last := q[..|q| - 1], q[|q| - 1];
      SortDistinct(front);
      QueuedAfterSort(front, Id(last));
      InsertDistinct(Sort(front, ORDER), last);
    }
  }

  lemma QueuedAfterSort(q: seq<Planned>, id: nat)
    ensures Queued(Sort(q, ORDER), id) == Queued(q, id)
  {
    SortCorrect(q, ORDER);
    if i :| 0 <= i < |q| && Id(q[i]) == id { assert q[i] in Sort(q, ORDER); }
    if i :| 0 <= i < |Sort(q, ORDER)| && Id(Sort(q, ORDER)[i]) == id { assert Sort(q, ORDER)[i] in q; }
  }

  lemma PutFacts(q: seq<Planned>, x: Planned)
    requires DistinctIds(q) && !Queued(q, Id(x))
    ensures var r := PlannedQueue.Apply(q, Put(x)).queue;
            DistinctIds(r) && (forall id :: Queued(r, id) <==> Queued(q, id) || id == Id(x)) && (forall p :: p in r <==> p in q || p == x)
  {
    SortDistinct(q + [x]);
    SortCorrect(q + [x], ORDER);
    forall id ensures Queued(Sort(q + [x], ORDER), id) <==> Queued(q, id) || id == Id(x) {
      QueuedAfterSort(q + [x], id);
      assert (q + [x])[|q|] == x;
      assert forall i | 0 <= i < |q| :: (q + [x])[i] == q[i];
    }
  }

  lemma {:induction false} AllLive(q: seq<Planned>, now: int)
    requires forall i | 0 <= i < |q| :: q[i].expiresAt.None?
    ensures Live(q, now) == q && Filter(q, ExpiredAt(now)) == []
  {
    if q != [] { AllLive(q[1..], now); }
  }

  lemma {:induction false} FilterDistinct(q: seq<Planned>, p: Planned -> bool)
    requires DistinctIds(q)
    ensures DistinctIds(Filter(q, p))
  {
    if q != [] {
      assert forall i | 0 <= i < |q[1..]| :: q[1..][i] == q[i + 1];
      FilterDistinct(q[1..], p);
      FilterMembers(q[1..], p);
      var rest := Filter(q[1..], p);
      forall i | 0 <= i < |rest| ensures Id(rest[i]) != Id(q[0]) {
        assert rest[i] in rest;
      }
    }
  }

  lemma SameItem(q: seq<Planned>, a: Planned, b: Planned)
    requires DistinctIds(q) && a in q && b in q && Id(a) == Id(b)
    ensures a == b
  {
    var i :| 0 <= i < |q| && q[i] == a;
    var j :| 0 <= j < |q| && q[j] == b;
  }

  /** Taking from a queue in which nothing expires takes its head. */
  lemma TakeFacts(q: seq<Planned>, now: int)
    requires DistinctIds(q) && forall p | p in q :: p.expiresAt.None?
    ensures Live(q, now) == q
    ensures var o := PlannedQueue.Apply(q, Get(now));
      && DistinctIds(o.queue) && (forall p | p in o.queue :: p in q)
      && (q == [] ==> o.taken == [] && o.queue == [])
      && (q != [] ==> o.taken == [q[0]] && o.queue == q[1..]
                      && forall id :: Queued(o.queue, id) <==> Queued(q, id) && id != Id(q[0]))
  {
    AllLive(q, now);
    if q != [] {
      assert forall i | 0 <= i < |q[1..]| :: q[1..][i] == q[i + 1];
      forall id ensures Queued(q[1..], id) <==> Queued(q, id) && id != Id(q[0]) {
        if i :| 0 <= i < |q| && Id(q[i]) == id && i > 0 { assert q[1..][i - 1] == q[i]; }
      }
    }
  }

  /** Sweeping splits the queue by kind. */
  lemma SweepFacts(q: seq<Planned>)
    requires DistinctIds(q)
    ensures var o := PlannedQueue.Apply(q, DiscardWhere(TALK));
      && DistinctIds(o.queue)
      && (forall p :: p in o.queue <==> p in q && !IsTalk(p))
      && (forall p :: p in o.dropped <==> p in q && IsTalk(p))
      && (forall id :: Queued(q, id) <==> Queued(o.queue, id) || id in Ids(o.dropped))
      && (forall id :: !(Queued(o.queue, id) && id in Ids(o.dropped)))
      && (forall id :: id in Ids(o.dropped) <==> Queued(o.dropped, id))
  {
    var o := PlannedQueue.Apply(q, DiscardWhere(TALK));
    FilterDistinct(q, Not(TALK));
    FilterMembers(q, Not(TALK));
    FilterMembers(q, TALK);
    forall id ensures Queued(q, id) <==> Queued(o.queue, id) || id in Ids(o.dropped) {
      if i :| 0 <= i < |q| && Id(q[i]) == id { assert q[i] in o.queue || q[i] in o.dropped; }
      if i :| 0 <= i < |o.queue| && Id(o.queue[i]) == id { assert o.queue[i] in q; }
      if i :| 0 <= i < |o.dropped| && Id(o.dropped[i]) == id { assert o.dropped[i] in q; }
    }
    forall id ensures !(Queued(o.queue, id) && id in Ids(o.dropped)) {
      forall a, b | a in o.queue && b in o.dropped ensures Id(a) != Id(b) {
        if Id(a) == Id(b) { SameItem(q, a, b); }
      }
    }
  }

  // ---------- Every move keeps the invariants ----------

  /** What is known stays known when the manager moves on and more plans are made. */
  lemma KnownStable(m: Manager.Manager, n: Manager.Manager, read: map<nat, nat>, more: map<nat, nat>, s: State)
    requires KnownInv(s) && s.m == m && s.read == read && Manager.Inv(n)
    requires ActivityTheorems.Advances(m, n) && forall id | id in read :: id in more
    requires forall id | id in more :: id in n.acts
    ensures KnownInv(s.(m := n, read := more))
  {
    forall p | Known(m, read, p) ensures Known(n, more, p) {
      assert Id(p) in m.acts && ActivityTheorems.Later(m.acts[Id(p)], n.acts[Id(p)]);
    }
  }

  /** Handling an event that may be known leaves its activity with the manager. */
  lemma TargetHandled(m: Manager.Manager, e: Event, id: nat)
    requires Manager.Inv(m) && id !in m.acts
    ensures var n, a := Manager.HandleEvent(m, e, id, true), Target(m, e, id);
            a in n.acts && n.acts[a].id == a && n.acts[a].sourceEvent == Some(e.id)
  {
    if Manager.FindBySource(m.acts, m.order, e.id).Some? {
      Manager.FindBySourceMeaning(m.acts, m.order, e.id);
    } else {
      Manager.MadeFrom(e, id);
      Manager.ResolveStores(m, Manager.FromEvent(e, id));
    }
  }

  /** The item the planner is about to hold. */
  lemma PlanFacts(s: State, v: Move)
    requires Manager.Inv(s.m) && Enabled(s, v) && v.Plan?
    ensures var s', a := DoPlanner(s, v), Target(s.m, v.event, v.id);
      && s'.planner.Holding? && Id(s'.planner.item) == a && s'.planner.item.expiresAt.None?
      && a in s'.m.acts && s'.m.acts[a] == s'.planner.item.activity && s'.m.acts[a].sourceEvent == Some(v.event.id)
      && s'.read == s.read[a := s.planner.generation]
      && s'.planner.generation == s.planner.generation
  {
    TargetHandled(s.m, v.event, v.id);
  }

  /** The move as seen by everything but the manager and the plans made so far. */
  function Hands(s: State, v: Move): State
    requires Enabled(s, v)
  {
    Do(s, v).(m := s.m, read := s.read)
  }

  lemma KnownKept(s: State, v: Move)
    requires KnownInv(s) && PlaceInv(s) && Enabled(s, v)
    ensures KnownInv(Do(s, v))
  {
    var s' := Do(s, v);
    ManagerAdvances(s, v);
    if v.Plan? {
      PlanFacts(s, v);
      KnownStable(s.m, s'.m, s.read, s'.read, s);
    } else {
      if ByPlanner(v) { PlannerHands(s, v); } else if ByUser(v) { UserHands(s, v); } else { ExecutorHands(s, v); }
      KnownStable(s.m, s'.m, s.read, s'.read, Hands(s, v));
    }
  }

  lemma PlannerHands(s: State, v: Move)
    requires KnownInv(s) && PlaceInv(s) && Enabled(s, v) && ByPlanner(v) && !v.Plan?
    ensures KnownInv(Hands(s, v)) && Do(s, v).read == s.read
  {
    match v {
      case LookAtSize(now) => TakeFacts(s.queue, now);
      case CheckAndPut => SortCorrect(s.queue + [s.planner.item], ORDER);
      case _ =>
    }
  }

  lemma UserHands(s: State, v: Move)
    requires KnownInv(s) && PlaceInv(s) && Enabled(s, v) && ByUser(v)
    ensures KnownInv(Hands(s, v)) && Do(s, v).read == s.read
  {
    match v {
      case SweepQueue => SweepFacts(s.queue);
      case _ =>
    }
  }

  lemma ExecutorHands(s: State, v: Move)
    requires KnownInv(s) && PlaceInv(s) && Enabled(s, v) && !ByPlanner(v) && !ByUser(v)
    ensures KnownInv(Hands(s, v)) && Do(s, v).read == s.read
  {
    match v {
      case Take(now) => TakeFacts(s.queue, now);
      case _ =>
    }
  }

  lemma PlacesKept(s: State, v: Move)
    requires KnownInv(s) && PlaceInv(s) && Enabled(s, v)
    ensures PlaceInv(Do(s, v))
  {
    if ByPlanner(v) { PlannerPlaces(s, v); }
    else if ByUser(v) { UserPlaces(s, v); }
    else { ExecutorPlaces(s, v); }
  }

  lemma PlannerPlaces(s: State, v: Move)
    requires KnownInv(s) && PlaceInv(s) && Enabled(s, v) && ByPlanner(v)
    ensures PlaceInv(Do(s, v))
  {
    match v {
      case LookAtSize(now) => TakeFacts(s.queue, now);
      case Plan(e, id, createdAt) =>
        PlanFacts(s, v);
        assert Places(s, Target(s.m, e, id)) == 0;
      case CheckAndPut => PutPlaces(s); return;
      case _ =>
    }
    forall id ensures Places(Do(s, v), id) == if id in Do(s, v).read then 1 else 0 {
      assert Places(s, id) == if id in s.read then 1 else 0;
    }
  }

  lemma PutPlaces(s: State)
    requires PlaceInv(s) && s.planner.Holding?
    ensures PlaceInv(DoPlanner(s, CheckAndPut))
  {
    var item := s.planner.item;
    assert Places(s, Id(item)) == 1;
    PutFacts(s.queue, item);
    forall id ensures Places(DoPlanner(s, CheckAndPut), id) == if id in s.read then 1 else 0 {
      assert Places(s, id) == if id in s.read then 1 else 0;
    }
  }

  lemma UserPlaces(s: State, v: Move)
    requires KnownInv(s) && PlaceInv(s) && Enabled(s, v) && ByUser(v)
    ensures PlaceInv(Do(s, v))
  {
    if v.SweepQueue? { SweepFacts(s.queue); }
    forall id ensures Places(Do(s, v), id) == if id in Do(s, v).read then 1 else 0 {
      assert Places(s, id) == if id in s.read then 1 else 0;
    }
  }

  lemma ExecutorPlaces(s: State, v: Move)
    requires KnownInv(s) && PlaceInv(s) && Enabled(s, v) && !ByPlanner(v) && !ByUser(v)
    ensures PlaceInv(Do(s, v))
  {
    if v.Take? { TakeFacts(s.queue, v.now); }
    forall id ensures Places(Do(s, v), id) == if id in Do(s, v).read then 1 else 0 {
      assert Places(s, id) == if id in s.read then 1 else 0;
    }
  }

  lemma TagsKept(s: State, v: Move)
    requires KnownInv(s) && PlaceInv(s) && TagInv(s) && Enabled(s, v)
    ensures TagInv(Do(s, v))
  {
    if ByPlanner(v) { PlannerTags(s, v); } else { OtherTags(s, v); }
  }

  lemma PlannerTags(s: State, v: Move)
    requires KnownInv(s) && PlaceInv(s) && TagInv(s) && Enabled(s, v) && ByPlanner(v)
    ensures TagInv(Do(s, v))
  {
    match v {
      case LookAtSize(now) => TakeFacts(s.queue, now);
      case Plan(e, id, createdAt) => PlanFacts(s, v);
      case CheckAndPut => CheckTags(s);
      case _ =>
    }
  }

  lemma OtherTags(s: State, v: Move)
    requires KnownInv(s) && PlaceInv(s) && TagInv(s) && Enabled(s, v) && !ByPlanner(v)
    ensures TagInv(Do(s, v))
  {
    match v {
      case SweepQueue => SweepFacts(s.queue);
      case Take(now) => TakeFacts(s.queue, now);
      case _ =>
    }
  }

  lemma CheckTags(s: State)
    requires TagInv(s) && s.planner.Holding?
    ensures TagInv(Do(s, CheckAndPut))
  {
    if !(s.planner.generation != s.generation && IsTalk(s.planner.item)) {
      PutTags(s.queue, s.planner.item, s.read, s.cleared);
    }
  }

  lemma PutTags(q: seq<Planned>, x: Planned, read: map<nat, nat>, cleared: nat)
    requires TalkIsRecent(q, read, cleared) && Id(x) in read && (IsTalk(x) ==> read[Id(x)] >= cleared)
    ensures TalkIsRecent(PlannedQueue.Apply(q, Put(x)).queue, read, cleared)
  {
    SortCorrect(q + [x], ORDER);
  }

  lemma EndedStays(s: State, v: Move)
    requires KnownInv(s) && Enabled(s, v)
    ensures forall id | Ended(s.m, id) :: Ended(Do(s, v).m, id)
  {
    ManagerAdvances(s, v);
    EndedAdvances(s.m, Do(s, v).m);
  }

  lemma EndedAdvances(m: Manager.Manager, n: Manager.Manager)
    requires ActivityTheorems.Advances(m, n)
    ensures forall id | Ended(m, id) :: Ended(n, id)
  {
    forall id | Ended(m, id) ensures Ended(n, id) {
      assert ActivityTheorems.Later(m.acts[id], n.acts[id]);
    }
  }

  lemma RejectedEndKept(s: State, v: Move)
    requires KnownInv(s) && RejectedEnd(s) && Enabled(s, v)
    ensures RejectedEnd(Do(s, v))
  {
    EndedStays(s, v);
    if v.CancelRejected? { assert Ended(Do(s, v).m, Id(s.planner.item)); }
  }

  lemma RejectedOnlyByCheck(s: State, v: Move)
    requires Enabled(s, v)
    ensures Do(s, v).rejected ==
            if v.CheckAndPut? && s.planner.generation != s.generation && s.planner.item.activity.kind == AutonomousTalk
            then s.rejected + {Id(s.planner.item)} else s.rejected
  {
  }

  lemma ReadsStay(s: State, v: Move)
    requires Manager.Inv(s.m) && Enabled(s, v)
    ensures s.generation <= Do(s, v).generation
    ensures forall id | id in s.read :: id in Do(s, v).read && Do(s, v).read[id] == s.read[id]
  {
    if v.Plan? { PlanFacts(s, v); }
  }

  lemma RejectedRightKept(s: State, v: Move)
    requires KnownInv(s) && TagInv(s) && RejectedRight(s) && Enabled(s, v)
    ensures RejectedRight(Do(s, v))
  {
    var s' := Do(s, v);
    ManagerAdvances(s, v);
    ReadsStay(s, v);
    RejectedOnlyByCheck(s, v);
    forall id | id in s'.rejected
      ensures id in s'.m.acts && s'.m.acts[id].kind == AutonomousTalk && id in s'.read && s'.read[id] < s'.generation
    {
      assert id in s.m.acts && s.m.acts[id].kind == AutonomousTalk && id in s.read && s.read[id] < s.generation;
      assert ActivityTheorems.Later(s.m.acts[id], s'.m.acts[id]);
    }
  }

  lemma DiscardedEndKept(s: State, v: Move)
    requires KnownInv(s) && PlaceInv(s) && DiscardedEnd(s) && Enabled(s, v)
    ensures DiscardedEnd(Do(s, v))
  {
    EndedStays(s, v);
    match v {
      case SweepQueue => SweepFacts(s.queue);
      case CancelNext => NextCanceled(s);
      case _ =>
    }
  }

  lemma NextCanceled(s: State)
    requires KnownInv(s) && Enabled(s, CancelNext)
    ensures forall id | Queued(s.user.rest, id) :: Ended(Do(s, CancelNext).m, id) || Queued(s.user.rest[1..], id)
  {
    var rest := s.user.rest;
    assert rest[0] in rest;
    assert Known(s.m, s.read, rest[0]);
    forall id | Queued(rest, id) && id != Id(rest[0]) ensures Queued(rest[1..], id) {
      var i :| 0 <= i < |rest| && Id(rest[i]) == id;
      assert rest[1..][i - 1] == rest[i];
    }
  }

  lemma SubmitsKept(s: State, v: Move)
    requires KnownInv(s) && SubmitInv(s) && Enabled(s, v)
    ensures SubmitInv(Do(s, v))
  {
  }

  lemma MoveKeepsInv(s: State, v: Move)
    requires Inv(s) && Enabled(s, v)
    ensures Inv(Do(s, v))
  {
    KnownKept(s, v);
    PlacesKept(s, v);
    TagsKept(s, v);
    RejectedEndKept(s, v);
    RejectedRightKept(s, v);
    DiscardedEndKept(s, v);
    SubmitsKept(s, v);
  }

  lemma StepOf(states: seq<State>, moves: seq<Move>, i: nat)
    requires CancellationProtocol.IsRun(states, moves) && i < |moves|
    ensures Enabled(states[i], moves[i]) && states[i + 1] == Do(states[i], moves[i])
  {
    assert MovesAt(states, moves, i);
  }

  lemma {:induction false} RunKeepsInv(states: seq<State>, moves: seq<Move>, i: nat)
    requires CancellationProtocol.IsRun(states, moves) && i < |states|
    ensures Inv(states[i])
  {
    if i > 0 {
      RunKeepsInv(states, moves, i - 1);
      StepOf(states, moves, i - 1);
      MoveKeepsInv(states[i - 1], moves[i - 1]);
    }
  }

  // ---------- Theorems ----------

  /** Autonomous talk whose generation was read before the last raise of the counter. */
  predicate Old(s: State, id: nat) {
    id in s.read && s.read[id] < s.generation && id in s.m.acts && s.m.acts[id].kind == AutonomousTalk
  }

  /** Where an old plan is once the steps for the user's text are done: still with the planner,
      whose check is going to fail, or rejected, or discarded from the queue and finished, or
      already popped by the executor. Never more than one of these, and never in the queue. */
  lemma FateOfOldPlan(states: seq<State>, moves: seq<Move>, i: nat, id: nat)
    requires CancellationProtocol.IsRun(states, moves) && i < |states|
    requires states[i].user.Quiet? && Old(states[i], id)
    ensures var s := states[i];
      && !Queued(s.queue, id)
      && Places(s, id) == 1
      && (InFlight(s.planner, id) ==> s.planner.generation != s.generation && IsTalk(s.planner.item))
      && (id in s.rejected ==> Ended(s.m, id) || (s.planner.Rejecting? && Id(s.planner.item) == id))
      && (id in s.discarded ==> Ended(s.m, id))
  {
    RunKeepsInv(states, moves, i);
    NotQueued(states[i], id);
  }

  lemma NotQueued(s: State, id: nat)
    requires Inv(s) && id in s.read && id in s.m.acts && s.m.acts[id].kind == AutonomousTalk && s.read[id] < s.cleared
    ensures !Queued(s.queue, id)
  {
    forall p | p in s.queue ensures Id(p) != id {
      assert Known(s.m, s.read, p);
    }
  }

  /** A stale plan of autonomous talk is turned away whenever the planner gets to its check. */
  lemma StalePlanIsRejected(s: State)
    requires Inv(s) && s.planner.Holding? && Old(s, Id(s.planner.item))
    ensures var s' := Do(s, CheckAndPut);
      s'.queue == s.queue && s'.planner == Rejecting(s.planner.item) && Ended(Do(s', CancelRejected).m, Id(s.planner.item))
  {
  }

  /** The exact outcome of the planner's check in every run: autonomous talk whose generation was
      read before the counter was raised is rejected and not queued; everything else is queued,
      beside what was queued before, and nothing is rejected. */
  lemma CheckExactly(states: seq<State>, moves: seq<Move>, i: nat)
    requires CancellationProtocol.IsRun(states, moves) && i < |moves| && moves[i] == CheckAndPut
    ensures var s, s' := states[i], states[i + 1];
      && s.planner.Holding? && Id(s.planner.item) in s.m.acts && Id(s.planner.item) in s.read
      && (var id := Id(s.planner.item);
          if s.m.acts[id].kind == AutonomousTalk && s.read[id] < s.generation
          then s'.rejected == s.rejected + {id} && s'.queue == s.queue && s'.planner == Rejecting(s.planner.item)
          else && s'.rejected == s.rejected && s'.planner == Resting
               && multiset(s'.queue) == multiset(s.queue) + multiset{s.planner.item} && s.planner.item in s'.queue)
      && s'.m == s.m && s'.discarded == s.discarded
  {
    RunKeepsInv(states, moves, i);
    StepOf(states, moves, i);
    var s := states[i];
    assert Known(s.m, s.read, s.planner.item);
    SortCorrect(s.queue + [s.planner.item], ORDER);
    assert s.planner.item in multiset(s.queue + [s.planner.item]);
  }

  /** Over every run: whatever was rejected was rejected by such a check. */
  lemma {:induction false} RejectedByCheck(states: seq<State>, moves: seq<Move>, j: nat, id: nat) returns (i: nat)
    requires CancellationProtocol.IsRun(states, moves) && j < |states| && id in states[j].rejected
    ensures i < j && moves[i] == CheckAndPut && states[i].planner.Holding? && Id(states[i].planner.item) == id
    ensures id in states[i].m.acts && states[i].m.acts[id].kind == AutonomousTalk
    ensures id in states[i].read && states[i].read[id] < states[i].generation
  {
    StepOf(states, moves, j - 1);
    RejectedOnlyByCheck(states[j - 1], moves[j - 1]);
    if id in states[j - 1].rejected {
      i := RejectedByCheck(states, moves, j - 1, id);
    } else {
      i := j - 1;
      CheckExactly(states, moves, i);
    }
  }

  lemma MovesGrow(s: State, v: Move)
    requires Inv(s) && Enabled(s, v)
    ensures var s' := Do(s, v);
      && s.cleared <= s'.cleared && s.generation <= s'.generation
      && (forall id | id in s.read :: id in s'.read && s'.read[id] == s.read[id])
      && s.submissions <= s'.submissions
  {
    ReadsStay(s, v);
  }

  /** What stays true of `id` from state `s` on. */
  predicate Since(s: State, t: State, id: nat) {
    && s.cleared <= t.cleared
    && (id in s.read ==> id in t.read && t.read[id] == s.read[id])
    && (id in s.m.acts ==> id in t.m.acts && ActivityTheorems.Later(s.m.acts[id], t.m.acts[id]))
  }

  lemma {:induction false} RunGrows(states: seq<State>, moves: seq<Move>, i: nat, j: nat, id: nat)
    requires CancellationProtocol.IsRun(states, moves) && i <= j < |states|
    ensures Since(states[i], states[j], id)
  {
    if i < j {
      RunGrows(states, moves, i, j - 1, id);
      RunKeepsInv(states, moves, j - 1);
      StepOf(states, moves, j - 1);
      SinceStep(states[j - 1], moves[j - 1], id);
      SinceTrans(states[i], states[j - 1], states[j], id);
    }
  }

  lemma SinceStep(s: State, v: Move, id: nat)
    requires Inv(s) && Enabled(s, v)
    ensures Since(s, Do(s, v), id)
  {
    MovesGrow(s, v);
    ManagerAdvances(s, v);
  }

  lemma SinceTrans(s: State, t: State, u: State, id: nat)
    requires Since(s, t, id) && Since(t, u, id)
    ensures Since(s, u, id)
  {
  }

  /** Once the steps for the user's text are done, no old plan is or ever will be in the queue. */
  lemma OldPlanNeverQueued(states: seq<State>, moves: seq<Move>, i: nat, j: nat, id: nat)
    requires CancellationProtocol.IsRun(states, moves) && i <= j < |states|
    requires states[i].user.Quiet? && Old(states[i], id)
    ensures !Queued(states[j].queue, id)
  {
    RunKeepsInv(states, moves, i);
    RunKeepsInv(states, moves, j);
    RunGrows(states, moves, i, j, id);
    NotQueued(states[j], id);
  }

  /** The executor submits only what the manager said was ACTIVE at the last status check. */
  lemma SubmittedWasActive(states: seq<State>, moves: seq<Move>, i: nat, k: nat)
    requires CancellationProtocol.IsRun(states, moves) && i < |states| && k < |states[i].submissions|
    ensures states[i].submissions[k].checked == Some(Active)
  {
    RunKeepsInv(states, moves, i);
  }

  /** The discarding of put-off talk, exactly. */
  lemma SweptExactly(states: seq<State>, moves: seq<Move>, i: nat, id: nat)
    requires CancellationProtocol.IsRun(states, moves) && i < |moves| && moves[i] == SweepDeferred && id in states[i].m.acts
    ensures var a := states[i].m.acts[id];
      id in states[i + 1].m.acts
      && states[i + 1].m.acts[id] == if a.kind == AutonomousTalk && a.status in {Status.Pending, Suspended} then a.(status := Canceled) else a
  {
    StepOf(states, moves, i);
  }

  /** The two status checks of the executor, exactly: it goes on when the manager has no record
      of the activity or says it is ACTIVE. */
  lemma ChecksExactly(s: State)
    ensures s.executor.Popped? ==>
              var item := s.executor.item;
              Do(s, Check) == s.(executor :=
                if Id(item) !in s.m.acts || s.m.acts[Id(item)].status == Active then Planning(item) else Waiting)
    ensures s.executor.ActionsPlanned? ==>
              var item := s.executor.item;
              (Do(s, CheckAgain).executor.Passed? <==> Id(item) !in s.m.acts || s.m.acts[Id(item)].status == Active)
              && (Do(s, CheckAgain).executor.Passed? ==> Do(s, CheckAgain).executor.item == item)
  {
  }

  /** What the executor gives up planning, or has executed, is completed. */
  lemma ExecutedIsCompleted(s: State, v: Move)
    requires Inv(s) && Enabled(s, v) && (v.Complete? || v == PlanActions(false))
    ensures var id := Id(s.executor.item);
      id in Do(s, v).m.acts && Do(s, v).m.acts[id].status == Completed && Do(s, v).executor == Waiting
  {
    ActivityTheorems.CompletedIs(s.m, Id(s.executor.item));
  }

  /** What is first in the queue and ACTIVE is submitted, if nothing comes between. */
  lemma UndisturbedIsSubmitted(s: State, now: int) returns (t: State)
    requires Inv(s) && s.executor.Waiting? && s.queue != []
    requires Id(s.queue[0]) in s.m.acts && s.m.acts[Id(s.queue[0])].status == Active
    ensures Enabled(s, Take(now)) && Reaches(Do(s, Take(now)), [Check, PlanActions(true), CheckAgain, Submit], t)
    ensures t.submissions == s.submissions + [Submission(Id(s.queue[0]), Some(Active))]
    ensures t.executor == Executing(s.queue[0]) && t.queue == s.queue[1..] && t.m == s.m
  {
    TakeFacts(s.queue, now);
    var a := Do(s, Take(now));
    var b := Do(a, Check);
    var c := Do(b, PlanActions(true));
    var d := Do(c, CheckAgain);
    t := Do(d, Submit);
    assert Reaches(d, [Submit], t);
    assert Reaches(c, [CheckAgain] + [Submit], t);
    assert Reaches(b, [PlanActions(true)] + ([CheckAgain] + [Submit]), t);
    assert [Check, PlanActions(true), CheckAgain, Submit] == [Check] + ([PlanActions(true)] + ([CheckAgain] + [Submit]));
  }

  /** These moves, one after the other, lead from `s` to `t`. */
  ghost predicate Reaches(s: State, moves: seq<Move>, t: State)
    decreases |moves|
  {
    if moves == [] then s == t else Enabled(s, moves[0]) && Reaches(Do(s, moves[0]), moves[1..], t)
  }

  // ---------- Stragglers ----------

  /** The executor holds an item that it may still submit. */
  predicate MaySubmit(e: Executor) { e.Popped? || e.Planning? || e.ActionsPlanned? || e.Passed? }

  function Pending(s: State, e: Executor): nat {
    if MaySubmit(e) && Old(s, Id(e.item)) then 1 else 0
  }

  /** How many of the submissions are of plans that were old in `s`. */
  function OldCount(s: State, submissions: seq<Submission>): nat {
    if submissions == [] then 0
    else OldCount(s, submissions[..|submissions| - 1]) + if Old(s, submissions[|submissions| - 1].id) then 1 else 0
  }

  /** The old plans that were submitted or that the executor may still submit. */
  function Stragglers(s0: State, s: State): nat { OldCount(s0, s.submissions) + Pending(s0, s.executor) }

  lemma {:induction false} StragglersNeverMore(states: seq<State>, moves: seq<Move>, i: nat, j: nat)
    requires CancellationProtocol.IsRun(states, moves) && i <= j < |states| && states[i].user.Quiet?
    ensures Stragglers(states[i], states[j]) <= Stragglers(states[i], states[i])
  {
    if i < j {
      StragglersNeverMore(states, moves, i, j - 1);
      StragglersAt(states, moves, i, j - 1);
    }
  }

  lemma StragglersAt(states: seq<State>, moves: seq<Move>, i: nat, j: nat)
    requires CancellationProtocol.IsRun(states, moves) && i <= j < |moves| && states[i].user.Quiet?
    ensures Stragglers(states[i], states[j + 1]) <= Stragglers(states[i], states[j])
  {
    RunKeepsInv(states, moves, j);
    StepOf(states, moves, j);
    OldNotAtHead(states, moves, i, j);
    StragglerStep(states[i], states[j], moves[j]);
  }

  /** After the steps for the user's text at most one old plan is still submitted: the one the
      executor had already taken off the queue. */
  lemma AtMostOneStraggler(states: seq<State>, moves: seq<Move>, i: nat, j: nat)
    requires CancellationProtocol.IsRun(states, moves) && i <= j < |states| && states[i].user.Quiet?
    ensures OldCount(states[i], states[j].submissions)
         <= OldCount(states[i], states[i].submissions)
            + if MaySubmit(states[i].executor) && Old(states[i], Id(states[i].executor.item)) then 1 else 0
  {
    StragglersNeverMore(states, moves, i, j);
  }

  lemma OldNotAtHead(states: seq<State>, moves: seq<Move>, i: nat, j: nat)
    requires CancellationProtocol.IsRun(states, moves) && i <= j < |states| && states[i].user.Quiet?
    ensures states[j].queue != [] ==> !Old(states[i], Id(states[j].queue[0]))
  {
    var q := states[j].queue;
    if q != [] && Old(states[i], Id(q[0])) {
      OldPlanNeverQueued(states, moves, i, j, Id(q[0]));
    }
  }

  lemma StragglerStep(s0: State, s: State, v: Move)
    requires Inv(s) && Enabled(s, v) && (s.queue != [] ==> !Old(s0, Id(s.queue[0])))
    ensures Stragglers(s0, Do(s, v)) <= Stragglers(s0, s)
  {
    if v.Take? { TakeFacts(s.queue, v.now); } else { ExecutorStep(s0, s, v); }
  }

  lemma ExecutorStep(s0: State, s: State, v: Move)
    requires Enabled(s, v) && !v.Take?
    ensures Stragglers(s0, Do(s, v)) <= Stragglers(s0, s)
  {
    if v.Submit? {
      var after := s.submissions + [Submission(Id(s.executor.item), s.executor.checked)];
      assert after[..|after| - 1] == s.submissions;
    }
  }

  // ---------- Interrupting what is already running ----------

  function CountOf(submissions: seq<Submission>, id: nat): nat {
    if submissions == [] then 0
    else CountOf(submissions[..|submissions| - 1], id) + if submissions[|submissions| - 1].id == id then 1 else 0
  }

  /** An activity that was displaced, cancelled or completed before the executor's last check
      is not submitted any more. */
  lemma {:induction false} DisplacedNotSubmitted(states: seq<State>, moves: seq<Move>, i: nat, j: nat, id: nat)
    requires CancellationProtocol.IsRun(states, moves) && i <= j < |states|
    requires id in states[i].m.acts && ActivityTheorems.Age(states[i].m.acts[id].status) > ActivityTheorems.Age(Active)
    requires !(states[i].executor.Passed? && Id(states[i].executor.item) == id)
    ensures CountOf(states[j].submissions, id) == CountOf(states[i].submissions, id)
    ensures !(states[j].executor.Passed? && Id(states[j].executor.item) == id)
  {
    if i < j {
      DisplacedNotSubmitted(states, moves, i, j - 1, id);
      RunGrows(states, moves, i, j - 1, id);
      StillDisplaced(states[i], states[j - 1], id);
      StepOf(states, moves, j - 1);
      NotPassed(states[j - 1], moves[j - 1], id);
    }
  }

  lemma StillDisplaced(s: State, t: State, id: nat)
    requires Since(s, t, id) && id in s.m.acts && ActivityTheorems.Age(s.m.acts[id].status) > ActivityTheorems.Age(Active)
    ensures id in t.m.acts && t.m.acts[id].status != Active
  {
  }

  lemma NotPassed(s: State, v: Move, id: nat)
    requires Enabled(s, v) && id in s.m.acts && s.m.acts[id].status != Active
    requires !(s.executor.Passed? && Id(s.executor.item) == id)
    ensures CountOf(Do(s, v).submissions, id) == CountOf(s.submissions, id)
    ensures !(Do(s, v).executor.Passed? && Id(Do(s, v).executor.item) == id)
  {
    if v.Submit? {
      var after := s.submissions + [Submission(Id(s.executor.item), s.executor.checked)];
      assert after[..|after| - 1] == s.submissions;
    }
  }

  /** So a user's text stops the talk in the foreground, unless the executor had already
      passed its last check: it is suspended at once and never submitted afterwards. */
  lemma TextInterruptsTalk(states: seq<State>, moves: seq<Move>, i: nat, j: nat, c: nat)
    requires CancellationProtocol.IsRun(states, moves) && i < j < |states| && moves[i].Prepare?
    requires Manager.FindBySource(states[i].m.acts, states[i].m.order, moves[i].event.id).None?
    requires states[i].m.foreground == Some(c) && c in states[i].m.acts
    requires states[i].m.acts[c].kind == AutonomousTalk && states[i].m.acts[c].interruptible
    requires !(states[i].executor.Passed? && Id(states[i].executor.item) == c)
    ensures c in states[i + 1].m.acts && states[i + 1].m.acts[c].status == Suspended
    ensures states[i + 1].m.foreground == Some(moves[i].id)
    ensures CountOf(states[j].submissions, c) == CountOf(states[i].submissions, c)
  {
    RunKeepsInv(states, moves, i);
    StepOf(states, moves, i);
    DisplacedNotSubmitted(states, moves, i + 1, j, c);
  }
}
