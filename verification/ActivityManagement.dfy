/**
 The activity manager: which activity is in the foreground, which wait, which were displaced.
 The pure operations below say what each locked method does; the class does it step by step.
*/
module ActivityManagement {
  import opened Options
  import opened Activities

  /** `_activities` with its insertion order, and `_foreground_activity_id`. */
  datatype Manager = Manager(acts: map<nat, Activity>, order: seq<nat>, foreground: Option<nat>)

  const EMPTY := Manager(map[], [], None)

  // ---------- Pure operations ----------

  /** `_activities[a.activity_id] = a`. */
  function Store(m: Manager, a: Activity): Manager {
    m.(acts := m.acts[a.id := a], order := if a.id in m.acts then m.order else m.order + [a.id])
  }

  function Activate(m: Manager, a: Activity): Manager {
    Store(m, a.(status := Active)).(foreground := Some(a.id))
  }

  function Current(m: Manager): Option<Activity> {
    if m.foreground.Some? && m.foreground.value in m.acts then Some(m.acts[m.foreground.value]) else None
  }

  predicate ShouldActivate(current: Activity, a: Activity) {
    current.interruptible && a.priority > current.priority
  }

  /** `_resolve_activity`. */
  function Resolve(m: Manager, a: Activity): Manager {
    match Current(m)
    case None => Activate(m, a)
    case Some(c) =>
      if ShouldActivate(c, a) then Activate(Store(m, c.(status := Suspended)), a)
      else Store(m, a.(status := Pending))
  }

  function FromEvent(e: Event, id: nat): Activity {
    match e.kind
    case UserText => Activity(id, ConversationWithUser, Pending, 100 + e.priority, false, Some(e.id))
    case YoutubeComment => Activity(id, ConversationWithUser, Pending, 100 + e.priority, false, Some(e.id))
    case AppStarted => Activity(id, StartupReaction, Pending, 90 + e.priority, false, Some(e.id))
    case StreamStarted => Activity(id, StreamOpeningGreeting, Pending, 95 + e.priority, false, Some(e.id))
    case MainSegment => Activity(id, StreamMainSegment, Pending, 94 + e.priority, false, Some(e.id))
    case CommentResponse => Activity(id, StreamCommentResponse, Pending, 93 + e.priority, false, Some(e.id))
    case StreamEnding => Activity(id, StreamClosingGreeting, Pending, 110 + e.priority, false, Some(e.id))
    case CuriosityPeak => Activity(id, AutonomousTalk, Pending, 55 + e.priority, true, Some(e.id))
    case SilenceTimeout => Activity(id, IdleObservation, Pending, 15 + e.priority, true, Some(e.id))
    case _ => Activity(id, IdleObservation, Pending, 10 + e.priority, true, Some(e.id))
  }

  /** The first activity of an event, in insertion order. */
  function FindBySource(acts: map<nat, Activity>, order: seq<nat>, event: nat): Option<nat> {
    if order == [] then None
    else if order[0] in acts && acts[order[0]].sourceEvent == Some(event) then Some(order[0])
    else FindBySource(acts, order[1..], event)
  }

  predicate FromThis(a: Activity, event: nat) { a.sourceEvent == Some(event) }

  /** Is there an activity of this event? */
  predicate KnowsEvent(acts: map<nat, Activity>, event: nat) {
    exists id | id in acts :: FromThis(acts[id], event)
  }

  lemma {:induction false} FindBySourceMeaning(acts: map<nat, Activity>, order: seq<nat>, event: nat)
    ensures var found := FindBySource(acts, order, event);
      && (found.None? <==> forall i | 0 <= i < |order| && order[i] in acts :: !FromThis(acts[order[i]], event))
      && (found.Some? ==> found.value in order && found.value in acts && FromThis(acts[found.value], event))
  {
    if order != [] && !(order[0] in acts && acts[order[0]].sourceEvent == Some(event)) {
      FindBySourceMeaning(acts, order[1..], event);
      assert forall i | 0 < i < |order| :: order[i] == order[1..][i - 1];
    }
  }

  function PrepareUserInput(m: Manager, e: Event, id: nat): Manager {
    if e.kind != UserText || FindBySource(m.acts, m.order, e.id).Some? then m
    else match Current(m)
      case None => m
      case Some(c) =>
        if c.kind != AutonomousTalk || !c.interruptible then m
        else Activate(Store(m, c.(status := Suspended)), FromEvent(e, id))
  }

  function HandleEvent(m: Manager, e: Event, id: nat, allowed: bool): Manager {
    if !allowed || FindBySource(m.acts, m.order, e.id).Some? then m else Resolve(m, FromEvent(e, id))
  }

  /** Moves activity `id` to a terminal status, freeing the foreground if it was there. */
  function Finish(m: Manager, id: nat, s: Status): Manager {
    if id !in m.acts then m
    else m.(acts := m.acts[id := m.acts[id].(status := s)],
            foreground := if m.foreground == Some(id) then None else m.foreground)
  }

  function Cancel(m: Manager, id: nat): Manager {
    if id in m.acts && Terminal(m.acts[id].status) then m else Finish(m, id, Canceled)
  }

  predicate Deferred(a: Activity) {
    a.kind == AutonomousTalk && (a.status == Pending || a.status == Suspended)
  }

  function CanceledIf(a: Activity, doomed: bool): Activity {
    if doomed then a.(status := Canceled) else a
  }

  /** Every deferred autonomous activity becomes CANCELED. */
  function DiscardDeferred(m: Manager): Manager {
    m.(acts := map id | id in m.acts :: CanceledIf(m.acts[id], Deferred(m.acts[id])))
  }

  /** The ids of the deferred autonomous activities, in insertion order. */
  function DeferredIn(acts: map<nat, Activity>, order: seq<nat>): (ids: seq<nat>)
    ensures forall id :: id in ids <==> id in order && id in acts && Deferred(acts[id])
  {
    if order == [] then []
    else
      var ids, x := DeferredIn(acts, order[..|order| - 1]), order[|order| - 1];
      if x in acts && Deferred(acts[x]) then ids + [x] else ids
  }

  /** `after` is `before` with the activities in `done` canceled. */
  predicate CanceledAmong(after: map<nat, Activity>, before: map<nat, Activity>, done: seq<nat>) {
    after.Keys == before.Keys && forall id | id in before :: after[id] == CanceledIf(before[id], id in done)
  }

  /** The activities `ids` of `acts`, canceled. */
  predicate AreCanceled(canceled: seq<Activity>, acts: map<nat, Activity>, ids: seq<nat>) {
    |canceled| == |ids| && forall i | 0 <= i < |ids| :: ids[i] in acts && canceled[i] == acts[ids[i]].(status := Canceled)
  }

  /** The highest-priority PENDING activity, the earliest one on ties. */
  function Best(acts: map<nat, Activity>, order: seq<nat>): Option<nat> {
    if order == [] then None
    else
      var b, x := Best(acts, order[..|order| - 1]), order[|order| - 1];
      if x in acts && acts[x].status == Pending
         && (b.None? || b.value !in acts || acts[x].priority > acts[b.value].priority) then Some(x)
      else b
  }

  function ResumeNext(m: Manager): Manager {
    match Best(m.acts, m.order)
    case None => m
    case Some(id) => if id in m.acts then Activate(m, m.acts[id]) else m
  }

  /** The end of a conversation makes autonomous talk that was put off stale. */
  function WithoutStale(m: Manager, id: nat): Manager {
    if id in m.acts && m.acts[id].kind == ConversationWithUser then DiscardDeferred(m) else m
  }

  function CompleteProcessed(m: Manager, id: nat): Manager {
    var done := Finish(WithoutStale(m, id), id, Completed);
    if m.foreground == Some(id) then ResumeNext(done) else done
  }

  function CompleteForeground(m: Manager): Manager {
    match Current(m)
    case None => m
    case Some(c) => CompleteProcessed(m, c.id)
  }

  // ---------- Runs ----------

  datatype Op =
    | OpPrepare(event: Event, id: nat)
    | OpHandle(event: Event, id: nat, allowed: bool)
    | OpRegister(activity: Activity)
    | OpComplete(id: nat)
    | OpCompleteForeground
    | OpCancel(id: nat)
    | OpDiscard

  function Apply(m: Manager, op: Op): Manager {
    match op
    case OpPrepare(e, id) => PrepareUserInput(m, e, id)
    case OpHandle(e, id, allowed) => HandleEvent(m, e, id, allowed)
    case OpRegister(a) => Resolve(m, a)
    case OpComplete(id) => CompleteProcessed(m, id)
    case OpCompleteForeground => CompleteForeground(m)
    case OpCancel(id) => Cancel(m, id)
    case OpDiscard => DiscardDeferred(m)
  }

  /** New activities come with ids not used before (UUIDs). */
  predicate Fresh(m: Manager, op: Op) {
    match op
    case OpPrepare(_, id) => id !in m.acts
    case OpHandle(_, id, _) => id !in m.acts
    case OpRegister(a) => a.id !in m.acts
    case _ => true
  }

  ghost predicate IsRun(ms: seq<Manager>, ops: seq<Op>) {
    && |ms| == |ops| + 1
    && ms[0] == EMPTY
    && forall i: nat | i < |ops| :: OpAt(ms, ops, i)
  }

  predicate OpAt(ms: seq<Manager>, ops: seq<Op>, i: nat)
    requires |ms| == |ops| + 1 && i < |ops|
  {
    Fresh(ms[i], ops[i]) && ms[i + 1] == Apply(ms[i], ops[i])
  }

  // ---------- Invariant ----------

  ghost predicate Dict(m: Manager) {
    && (forall id | id in m.acts :: m.acts[id].id == id)
    && (forall id :: id in m.order <==> id in m.acts)
    && (forall i, j | 0 <= i < j < |m.order| :: m.order[i] != m.order[j])
  }

  /** An activity is ACTIVE exactly when it is the recorded foreground. */
  ghost predicate Inv(m: Manager) {
    && Dict(m)
    && (m.foreground.Some? ==> m.foreground.value in m.acts)
    && (forall id | id in m.acts :: m.acts[id].status == Active <==> m.foreground == Some(id))
  }

  // ---------- The manager object ----------

  class ActivityManager {
    var activities: map<nat, Activity>
    var order: seq<nat>
    var foregroundId: Option<nat>

    ghost function Model(): Manager
      reads this
    {
      Manager(activities, order, foregroundId)
    }

    ghost predicate Valid()
      reads this
    {
      Inv(Model())
    }

    constructor ()
      ensures Valid() && Model() == EMPTY
    {
      activities, order, foregroundId := map[], [], None;
    }

    method StoreActivity(a: Activity)
      modifies this`activities, this`order
      ensures Model() == Store(old(Model()), a)
    {
      if a.id !in activities { order := order + [a.id]; }
      activities := activities[a.id := a];
    }

    method ActivateNow(a: Activity) returns (active: Activity)
      modifies this
      ensures Model() == Activate(old(Model()), a)
      ensures active == a.(status := Active)
    {
      active := a.(status := Active);
      StoreActivity(active);
      foregroundId := Some(active.id);
    }

    method Foreground() returns (current: Option<Activity>)
      ensures current == Current(Model())
    {
      if foregroundId.None? || foregroundId.value !in activities { return None; }
      current := Some(activities[foregroundId.value]);
    }

    method FindBySourceEvent(event: nat) returns (found: Option<Activity>)
      requires Dict(Model())
      ensures found.Some? <==> KnowsEvent(activities, event)
      ensures found.Some? ==> FromThis(found.value, event)
      ensures found.Some? <==> FindBySource(activities, order, event).Some?
      ensures found.Some? ==> found.value.id in activities && found.value == activities[found.value.id]
                              && Some(found.value.id) == FindBySource(activities, order, event)
    {
      FindBySourceMeaning(activities, order, event);
      assert KnowsEvent(activities, event) <==> FindBySource(activities, order, event).Some?;
      for i := 0 to |order|
        invariant FindBySource(activities, order, event) == FindBySource(activities, order[i..], event)
      {
        assert order[i..][1..] == order[i + 1..];
        if activities[order[i]].sourceEvent == Some(event) {
          return Some(activities[order[i]]);
        }
      }
      found := None;
    }

    method ResolveActivity(a: Activity) returns (resolved: Activity)
      requires Valid() && a.id !in activities
      modifies this
      ensures Valid() && Model() == Resolve(old(Model()), a)
      ensures a.id in activities && activities[a.id] == resolved
      ensures resolved == a.(status := if foregroundId == Some(a.id) then Active else Pending)
      ensures foregroundId == Some(a.id) <==>
                old(foregroundId).None?
                || (old(activities)[old(foregroundId).value].interruptible
                    && a.priority > old(activities)[old(foregroundId).value].priority)
      ensures forall c | c in old(activities) ::
                c in activities && activities[c] == old(activities)[c].(status :=
                  if old(foregroundId) == Some(c) && foregroundId != Some(c) then Suspended else old(activities)[c].status)
      ensures foregroundId == Some(a.id) || foregroundId == old(foregroundId)
    {
      ResolveKeepsInv(Model(), a);
      var current := Foreground();
      if current.None? {
        resolved := ActivateNow(a);
        return;
      }
      if current.value.interruptible && a.priority > current.value.priority {
        StoreActivity(current.value.(status := Suspended));
        resolved := ActivateNow(a);
        return;
      }
      resolved := a.(status := Pending);
      StoreActivity(resolved);
    }

    method PrepareInput(e: Event, id: nat) returns (prepared: Option<Activity>)
      requires Valid() && id !in activities
      modifies this
      ensures Valid() && Model() == PrepareUserInput(old(Model()), e, id)
      ensures prepared.Some? <==>
                e.kind == UserText && (KnowsEvent(old(activities), e.id) || Model() != old(Model()))
      ensures prepared.Some? ==> prepared.value.id in activities && prepared.value == activities[prepared.value.id]
                                 && FromThis(prepared.value, e.id)
      ensures KnowsEvent(old(activities), e.id) ==> Model() == old(Model())
      ensures var c := old(foregroundId);
        Model() != old(Model()) <==>
          && e.kind == UserText && !KnowsEvent(old(activities), e.id) && c.Some?
          && old(activities)[c.value].kind == AutonomousTalk && old(activities)[c.value].interruptible
      ensures Model() != old(Model()) ==>
                && foregroundId == Some(id) && id in activities && activities[id] == FromEvent(e, id).(status := Active)
                && old(foregroundId).value in activities && activities[old(foregroundId).value].status == Suspended
    {
      PrepareKeepsInv(Model(), e, id);
      if e.kind != UserText { return None; }
      prepared := FindBySourceEvent(e.id);
      if prepared.Some? { return; }
      var current := Foreground();
      if current.None? || current.value.kind != AutonomousTalk || !current.value.interruptible { return None; }
      StoreActivity(current.value.(status := Suspended));
      var conversation := ActivateNow(FromEvent(e, id));
      prepared := Some(conversation);
    }

    /** `None` stands for the exception raised when the lifecycle gate refuses. */
    method Handle(e: Event, id: nat, allowed: bool) returns (r: Option<Activity>)
      requires Valid() && id !in activities
      modifies this
      ensures Valid() && Model() == HandleEvent(old(Model()), e, id, allowed)
      ensures r.Some? <==> allowed
      ensures r.Some? ==> r.value.id in activities && r.value == activities[r.value.id] && FromThis(r.value, e.id)
      ensures !allowed || KnowsEvent(old(activities), e.id) ==> Model() == old(Model())
      ensures allowed && !KnowsEvent(old(activities), e.id) ==>
                r.value == FromEvent(e, id).(status := r.value.status)
                && r.value.status == if foregroundId == Some(id) then Active else Pending
    {
      if !allowed { return None; }
      r := FindBySourceEvent(e.id);
      if r.Some? { return; }
      var resolved := ResolveActivity(FromEvent(e, id));
      r := Some(resolved);
    }

    method CompleteActivity(id: nat) returns (completed: Option<Activity>)
      requires Valid()
      modifies this
      ensures Valid() && Model() == Finish(old(Model()), id, Completed)
      ensures completed == if id in old(activities) then Some(activities[id]) else None
    {
      if id !in activities { return None; }
      activities := activities[id := activities[id].(status := Completed)];
      if foregroundId == Some(id) { foregroundId := None; }
      completed := Some(activities[id]);
    }

    method CancelActivity(id: nat) returns (canceled: Option<Activity>)
      requires Valid()
      modifies this
      ensures Valid() && Model() == Cancel(old(Model()), id)
      ensures canceled == if id in activities then Some(activities[id]) else None
    {
      if id !in activities { return None; }
      if Terminal(activities[id].status) { return Some(activities[id]); }
      activities := activities[id := activities[id].(status := Canceled)];
      if foregroundId == Some(id) { foregroundId := None; }
      canceled := Some(activities[id]);
    }

    /** Collects the targets first, then cancels them one by one. */
    method DiscardDeferredAutonomous() returns (discarded: seq<Activity>)
      requires Valid()
      modifies this
      ensures Valid() && Model() == DiscardDeferred(old(Model()))
      ensures AreCanceled(discarded, old(activities), DeferredIn(old(activities), old(order)))
      ensures activities.Keys == old(activities).Keys && foregroundId == old(foregroundId)
      ensures forall id | id in old(activities) ::
                var a := old(activities)[id];
                activities[id] == if a.kind == AutonomousTalk && a.status in {Pending, Suspended} then a.(status := Canceled) else a
    {
      DiscardKeepsInv(Model());
      var targets := DeferredIds();
      discarded := CancelAll(targets);
    }

    method DeferredIds() returns (targets: seq<nat>)
      requires Valid()
      ensures targets == DeferredIn(activities, order)
      ensures forall id :: id in targets <==> id in activities && Deferred(activities[id])
    {
      targets := [];
      for i := 0 to |order|
        invariant targets == DeferredIn(activities, order[..i])
      {
        assert order[..i + 1][..i] == order[..i];
        if Deferred(activities[order[i]]) { targets := targets + [order[i]]; }
      }
      assert order[..|order|] == order;
    }

    method CancelAll(targets: seq<nat>) returns (discarded: seq<Activity>)
      requires Valid() && forall id | id in targets :: id in activities && Deferred(activities[id])
      modifies this
      ensures Valid() && order == old(order) && foregroundId == old(foregroundId)
      ensures CanceledAmong(activities, old(activities), targets)
      ensures AreCanceled(discarded, old(activities), targets)
    {
      discarded := [];
      for i := 0 to |targets|
        invariant Valid() && foregroundId == old(foregroundId) && order == old(order)
        invariant CanceledAmong(activities, old(activities), targets[..i])
        invariant AreCanceled(discarded, old(activities), targets[..i])
      {
        assert targets[..i + 1] == targets[..i] + [targets[i]];
        assert targets[i] in targets;
        var canceled := CancelDeferred(targets[i], old(activities), targets[..i]);
        discarded := discarded + [canceled];
      }
      assert targets[..|targets|] == targets;
    }

    /** One of them; it may have been canceled already. */
    method CancelDeferred(id: nat, ghost before: map<nat, Activity>, ghost done: seq<nat>) returns (canceled: Activity)
      requires Valid() && CanceledAmong(activities, before, done) && id in before && Deferred(before[id])
      modifies this
      ensures Valid() && order == old(order) && foregroundId == old(foregroundId)
      ensures CanceledAmong(activities, before, done + [id]) && canceled == before[id].(status := Canceled)
    {
      var r := CancelActivity(id);
      canceled := r.value;
    }

    /** `max(pending, key=priority)`, then `_activate`. */
    method ResumeNextPending() returns (resumed: Option<Activity>)
      requires Valid() && foregroundId.None?
      modifies this
      ensures Valid() && Model() == ResumeNext(old(Model()))
      ensures resumed == Current(Model())
    {
      ResumeKeepsInv(Model());
      var best := BestPending();
      if best.None? { return None; }
      var active := ActivateNow(activities[best.value]);
      resumed := Some(active);
    }

    method BestPending() returns (best: Option<nat>)
      requires Valid()
      ensures best == Best(activities, order) && (best.Some? ==> best.value in activities)
    {
      best := None;
      for i := 0 to |order|
        invariant best == Best(activities, order[..i])
        invariant best.Some? ==> best.value in activities
      {
        assert order[..i + 1][..i] == order[..i];
        var a := activities[order[i]];
        if a.status == Pending && (best.None? || a.priority > activities[best.value].priority) {
          best := Some(a.id);
        }
      }
      assert order[..|order|] == order;
    }

    method CompleteProcessedActivity(id: nat) returns (completed: Option<Activity>)
      requires Valid()
      modifies this
      ensures Valid() && Model() == CompleteProcessed(old(Model()), id)
      ensures completed == if id in old(activities) then Some(old(activities)[id].(status := Completed)) else None
    {
      if id in activities && activities[id].kind == ConversationWithUser {
        var discarded := DiscardDeferredAutonomous();
      }
      var wasForeground := foregroundId == Some(id);
      completed := CompleteActivity(id);
      if wasForeground { var resumed := ResumeNextPending(); }
    }

    method CompleteForegroundActivity() returns (completed: Option<Activity>)
      requires Valid()
      modifies this
      ensures Valid() && Model() == CompleteForeground(old(Model()))
      ensures completed == match Current(old(Model())) case None => None case Some(c) => Some(c.(status := Completed))
    {
      var current := Foreground();
      if current.None? { return None; }
      if current.value.kind == ConversationWithUser {
        var discarded := DiscardDeferredAutonomous();
      }
      completed := CompleteActivity(current.value.id);
      var resumed := ResumeNextPending();
    }
  }

  // ---------- Every operation keeps the invariant ----------

  lemma StoreKeepsDict(m: Manager, a: Activity)
    requires Dict(m)
    ensures Dict(Store(m, a))
  {
  }

  lemma ActivateKeepsInv(m: Manager, a: Activity)
    requires Inv(m) && m.foreground.None?
    ensures Inv(Activate(m, a))
  {
    StoreKeepsDict(m, a.(status := Active));
  }

  /** Displacing the foreground `c`. */
  lemma DisplaceKeepsInv(m: Manager, c: Activity, a: Activity)
    requires Inv(m) && Current(m) == Some(c) && a.id !in m.acts
    ensures Inv(Activate(Store(m, c.(status := Suspended)), a))
  {
    var s := Store(m, c.(status := Suspended)).(foreground := None);
    StoreKeepsDict(m, c.(status := Suspended));
    assert Inv(s);
    ActivateKeepsInv(s, a);
  }

  lemma DeferKeepsInv(m: Manager, a: Activity)
    requires Inv(m) && a.id !in m.acts
    ensures Inv(Store(m, a.(status := Pending)))
  {
    StoreKeepsDict(m, a.(status := Pending));
  }

  lemma ResolveKeepsInv(m: Manager, a: Activity)
    requires Inv(m) && a.id !in m.acts
    ensures Inv(Resolve(m, a))
  {
    match Current(m) {
      case None => ActivateKeepsInv(m, a);
      case Some(c) => DisplaceKeepsInv(m, c, a); DeferKeepsInv(m, a);
    }
  }

  lemma ResolveStores(m: Manager, a: Activity)
    requires Inv(m) && a.id !in m.acts
    ensures a.id in Resolve(m, a).acts && Resolve(m, a).acts[a.id] == a.(status := Resolve(m, a).acts[a.id].status)
  {
  }

  lemma MadeFrom(e: Event, id: nat)
    ensures FromEvent(e, id).id == id && FromThis(FromEvent(e, id), e.id)
  {
  }

  lemma PrepareKeepsInv(m: Manager, e: Event, id: nat)
    requires Inv(m) && id !in m.acts
    ensures Inv(PrepareUserInput(m, e, id))
  {
    if Current(m).Some? { DisplaceKeepsInv(m, Current(m).value, FromEvent(e, id)); }
  }

  lemma DiscardKeepsInv(m: Manager)
    requires Inv(m)
    ensures Inv(DiscardDeferred(m))
  {
  }

  /** What `Best` finds: a PENDING activity that no other beats, the first such on ties. */
  lemma {:induction false} BestMeaning(acts: map<nat, Activity>, order: seq<nat>)
    ensures Best(acts, order).None? <==> forall i | 0 <= i < |order| && order[i] in acts :: acts[order[i]].status != Pending
    ensures Best(acts, order).Some? ==> exists i :: 0 <= i < |order| && IsBest(acts, order, i) && Best(acts, order) == Some(order[i])
  {
    if order != [] {
      var n := |order| - 1;
      var front := order[..n];
      BestMeaning(acts, front);
      if Best(acts, front).Some? {
        var i :| 0 <= i < n && IsBest(acts, front, i) && Best(acts, front) == Some(front[i]);
        assert order[i] == front[i];
        assert Best(acts, order) == Some(order[i]) ==> IsBest(acts, order, i);
        assert Best(acts, order) != Some(order[i]) ==> IsBest(acts, order, n);
      } else {
        assert forall i | 0 <= i < n :: order[i] == front[i];
        assert Best(acts, order).Some? ==> IsBest(acts, order, n);
      }
    }
  }

  predicate IsBest(acts: map<nat, Activity>, order: seq<nat>, i: nat)
    requires i < |order|
  {
    && order[i] in acts && acts[order[i]].status == Pending
    && (forall j | 0 <= j < |order| && order[j] in acts && acts[order[j]].status == Pending ::
          acts[order[j]].priority <= acts[order[i]].priority
          && (j < i ==> acts[order[j]].priority < acts[order[i]].priority))
  }

  lemma ResumeKeepsInv(m: Manager)
    requires Inv(m) && m.foreground.None?
    ensures Inv(ResumeNext(m))
  {
    BestMeaning(m.acts, m.order);
    var b := Best(m.acts, m.order);
    if b.Some? { StoreKeepsDict(m, m.acts[b.value].(status := Active)); }
  }

  lemma FinishKeepsInv(m: Manager, id: nat, s: Status)
    requires Inv(m) && Terminal(s)
    ensures Inv(Finish(m, id, s))
  {
  }

  lemma CompleteKeepsInv(m: Manager, id: nat)
    requires Inv(m)
    ensures Inv(CompleteProcessed(m, id))
  {
    DiscardKeepsInv(m);
    FinishKeepsInv(WithoutStale(m, id), id, Completed);
    if m.foreground == Some(id) { ResumeKeepsInv(Finish(WithoutStale(m, id), id, Completed)); }
  }

  lemma ApplyKeepsInv(m: Manager, op: Op)
    requires Inv(m) && Fresh(m, op)
    ensures Inv(Apply(m, op))
  {
    match op {
      case OpPrepare(e, id) => PrepareKeepsInv(m, e, id);
      case OpHandle(e, id, allowed) => ResolveKeepsInv(m, FromEvent(e, id));
      case OpRegister(a) => ResolveKeepsInv(m, a);
      case OpComplete(id) => CompleteKeepsInv(m, id);
      case OpCompleteForeground =>
        if Current(m).Some? { CompleteKeepsInv(m, Current(m).value.id); }
      case OpCancel(id) => FinishKeepsInv(m, id, Canceled);
      case OpDiscard => DiscardKeepsInv(m);
    }
  }
}
