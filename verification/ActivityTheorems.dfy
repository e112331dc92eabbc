/** What holds of the activity manager over every run in which new activities get new ids. */
module ActivityTheorems {
  import opened Options
  import opened Activities
  import opened ActivityManagement

  lemma {:induction false} RunKeepsInv(ms: seq<Manager>, ops: seq<Op>, i: nat)
    requires IsRun(ms, ops) && i < |ms|
    ensures Inv(ms[i])
  {
    if i > 0 {
      RunKeepsInv(ms, ops, i - 1);
      assert OpAt(ms, ops, i - 1);
      ApplyKeepsInv(ms[i - 1], ops[i - 1]);
    }
  }

  // ---------- Statuses only move forward ----------

  /** The life of an activity runs through increasing ages; no operation writes `waiting`. */
  function Age(s: Status): nat {
    match s
    case AwaitingInput => 0
    case Pending => 0
    case Active => 1
    case Suspended => 2
    case Canceled => 3
    case Completed => 4
  }

  /** `b` is a later stage of activity `a`. */
  predicate Later(a: Activity, b: Activity) {
    b == a.(status := b.status) && Age(a.status) <= Age(b.status)
  }

  ghost predicate Advances(m: Manager, n: Manager) {
    forall id | id in m.acts :: id in n.acts && Later(m.acts[id], n.acts[id])
  }

  lemma AdvancesTrans(a: Manager, b: Manager, c: Manager)
    requires Advances(a, b) && Advances(b, c)
    ensures Advances(a, c)
  {
    forall id | id in a.acts ensures id in c.acts && Later(a.acts[id], c.acts[id]) {
      assert id in b.acts && Later(a.acts[id], b.acts[id]) && Later(b.acts[id], c.acts[id]);
    }
  }

  lemma ResolveAdvances(m: Manager, a: Activity)
    requires Inv(m) && a.id !in m.acts
    ensures Advances(m, Resolve(m, a))
  {
  }

  lemma PrepareAdvances(m: Manager, e: Event, id: nat)
    requires Inv(m) && id !in m.acts
    ensures Advances(m, PrepareUserInput(m, e, id))
  {
  }

  lemma ResumeAdvances(m: Manager)
    requires Inv(m) && m.foreground.None?
    ensures Advances(m, ResumeNext(m))
  {
    BestMeaning(m.acts, m.order);
  }

  lemma FinishAdvances(m: Manager, id: nat)
    ensures Advances(m, Finish(m, id, Completed))
  {
  }

  lemma CompleteAdvances(m: Manager, id: nat)
    requires Inv(m)
    ensures Advances(m, CompleteProcessed(m, id))
  {
    var d := WithoutStale(m, id);
    var f := Finish(d, id, Completed);
    assert Inv(d) && Advances(m, d) by { DiscardKeepsInv(m); }
    FinishAdvances(d, id);
    AdvancesTrans(m, d, f);
    if m.foreground == Some(id) {
      FinishKeepsInv(d, id, Completed);
      ResumeAdvances(f);
      AdvancesTrans(m, f, ResumeNext(f));
    }
  }

  /** No operation removes an activity, changes anything but its status, or moves it backwards. */
  lemma ApplyAdvances(m: Manager, op: Op)
    requires Inv(m) && Fresh(m, op)
    ensures Advances(m, Apply(m, op))
  {
    match op {
      case OpPrepare(e, id) => PrepareAdvances(m, e, id);
      case OpHandle(e, id, allowed) => ResolveAdvances(m, FromEvent(e, id));
      case OpRegister(a) => ResolveAdvances(m, a);
      case OpComplete(id) => CompleteAdvances(m, id);
      case OpCompleteForeground => if Current(m).Some? { CompleteAdvances(m, Current(m).value.id); }
      case OpCancel(id) =>
      case OpDiscard =>
    }
  }

  lemma {:induction false} RunAdvances(ms: seq<Manager>, ops: seq<Op>, i: nat, j: nat)
    requires IsRun(ms, ops) && i <= j < |ms|
    ensures Advances(ms[i], ms[j])
  {
    if i < j {
      RunAdvances(ms, ops, i, j - 1);
      RunKeepsInv(ms, ops, j - 1);
      assert OpAt(ms, ops, j - 1);
      ApplyAdvances(ms[j - 1], ops[j - 1]);
      AdvancesTrans(ms[i], ms[j - 1], ms[j]);
    }
  }

  /** Over every run: exactly the recorded foreground is ACTIVE, what is finished never lives
      again, and what was displaced only ever ends. */
  lemma Lifecycle(ms: seq<Manager>, ops: seq<Op>, i: nat, j: nat, id: nat)
    requires IsRun(ms, ops) && i <= j < |ms| && id in ms[i].acts
    ensures id in ms[j].acts
    ensures ms[j].acts[id].status == Active <==> ms[j].foreground == Some(id)
    ensures Terminal(ms[i].acts[id].status) ==> Terminal(ms[j].acts[id].status)
    ensures ms[i].acts[id].status == Completed ==> ms[j].acts[id].status == Completed
    ensures ms[i].acts[id].status == Suspended ==> ms[j].acts[id].status == Suspended || Terminal(ms[j].acts[id].status)
  {
    RunKeepsInv(ms, ops, j);
    RunAdvances(ms, ops, i, j);
  }

  /** The time an activity spends in the foreground is one unbroken stretch. */
  lemma ForegroundOnce(ms: seq<Manager>, ops: seq<Op>, i: nat, j: nat, k: nat, id: nat)
    requires IsRun(ms, ops) && i <= j <= k < |ms|
    requires ms[i].foreground == Some(id) && ms[k].foreground == Some(id)
    ensures ms[j].foreground == Some(id)
  {
    RunKeepsInv(ms, ops, i);
    RunKeepsInv(ms, ops, k);
    Lifecycle(ms, ops, i, j, id);
    assert Age(ms[i].acts[id].status) <= Age(ms[j].acts[id].status) by { RunAdvances(ms, ops, i, j); }
    assert Age(ms[j].acts[id].status) <= Age(ms[k].acts[id].status) by { RunAdvances(ms, ops, j, k); }
  }

  /** Without fresh ids this fails, and only so: registering an activity revives exactly the
      finished activity whose id it reuses. */
  lemma RegisteringRevives(m: Manager, a: Activity, id: nat)
    requires Inv(m) && id in m.acts && Terminal(m.acts[id].status)
    ensures Terminal(Resolve(m, a).acts[id].status) <==> a.id != id
  {
  }

  // ---------- One activity for each event ----------

  predicate Sole(acts: map<nat, Activity>, event: nat) {
    forall a, b | a in acts && b in acts && FromThis(acts[a], event) && FromThis(acts[b], event) :: a == b
  }

  predicate Registers(op: Op, event: nat) { op.OpRegister? && FromThis(op.activity, event) }

  /** A new activity comes from the operation's event, and not from one already known. */
  lemma NewActivity(m: Manager, op: Op, d: nat)
    requires Inv(m) && Fresh(m, op) && d in Apply(m, op).acts && d !in m.acts
    ensures op.OpRegister? || op.OpPrepare? || op.OpHandle?
    ensures d == if op.OpRegister? then op.activity.id else op.id
    ensures Apply(m, op).acts[d].sourceEvent == if op.OpRegister? then op.activity.sourceEvent else Some(op.event.id)
    ensures !op.OpRegister? ==> !KnowsEvent(m.acts, op.event.id)
  {
    if op.OpPrepare? || op.OpHandle? { FindBySourceMeaning(m.acts, m.order, op.event.id); }
    if op.OpComplete? { CompletedKeys(m, op.id); }
    if op.OpCompleteForeground? && Current(m).Some? { CompletedKeys(m, Current(m).value.id); }
  }

  lemma CompletedKeys(m: Manager, id: nat)
    requires Inv(m)
    ensures CompleteProcessed(m, id).acts.Keys == m.acts.Keys
  {
    var f := Finish(WithoutStale(m, id), id, Completed);
    assert f.acts.Keys == m.acts.Keys;
    BestMeaning(f.acts, f.order);
  }

  lemma SoleKept(m: Manager, op: Op, event: nat)
    requires Inv(m) && Fresh(m, op) && Sole(m.acts, event) && !Registers(op, event)
    ensures Sole(Apply(m, op).acts, event)
  {
    var n := Apply(m, op);
    ApplyAdvances(m, op);
    forall a, b | a in n.acts && b in n.acts && FromThis(n.acts[a], event) && FromThis(n.acts[b], event) ensures a == b {
      if a !in m.acts { NewActivity(m, op, a); }
      if b !in m.acts { NewActivity(m, op, b); }
      assert a in m.acts ==> Later(m.acts[a], n.acts[a]);
      assert b in m.acts ==> Later(m.acts[b], n.acts[b]);
    }
  }

  /** Over every run in which nothing is registered under the event's id: preparing and handling
      it, in any order and number, make at most one activity of it. */
  lemma {:induction false} EventOnce(ms: seq<Manager>, ops: seq<Op>, i: nat, event: nat)
    requires IsRun(ms, ops) && i < |ms| && forall j | 0 <= j < i :: !Registers(ops[j], event)
    ensures Sole(ms[i].acts, event)
  {
    if i > 0 {
      EventOnce(ms, ops, i - 1, event);
      RunKeepsInv(ms, ops, i - 1);
      assert OpAt(ms, ops, i - 1);
      SoleKept(ms[i - 1], ops[i - 1], event);
    }
  }

  /** Handling or preparing an event whose activity `a` is known changes nothing, and finds `a`. */
  lemma KnownEventChangesNothing(ms: seq<Manager>, ops: seq<Op>, i: nat, a: nat)
    requires IsRun(ms, ops) && i < |ops| && (ops[i].OpHandle? || ops[i].OpPrepare?)
    requires forall j | 0 <= j < i :: !Registers(ops[j], ops[i].event.id)
    requires a in ms[i].acts && FromThis(ms[i].acts[a], ops[i].event.id)
    ensures ms[i + 1] == ms[i] && FindBySource(ms[i].acts, ms[i].order, ops[i].event.id) == Some(a)
  {
    RunKeepsInv(ms, ops, i);
    assert OpAt(ms, ops, i);
    EventOnce(ms, ops, i, ops[i].event.id);
    FindBySourceMeaning(ms[i].acts, ms[i].order, ops[i].event.id);
  }

  /** A text that displaces talk is prepared, and later handled, as one conversation: handling it
      returns the ACTIVE one. */
  method PreparedIsHandled(manager: ActivityManager, text: Event, id: nat, other: nat, talk: nat) returns (r: Option<Activity>)
    requires manager.Valid() && id !in manager.activities && other !in manager.activities && id != other
    requires text.kind == UserText && !KnowsEvent(manager.activities, text.id)
    requires manager.foregroundId == Some(talk) && talk in manager.activities
    requires manager.activities[talk].kind == AutonomousTalk && manager.activities[talk].interruptible
    modifies manager
    ensures manager.Valid() && manager.foregroundId == Some(id) && other !in manager.activities
    ensures talk in manager.activities && manager.activities[talk].status == Suspended
    ensures r.Some? && r.value.id == id && r.value.status == Active && r.value.kind == ConversationWithUser
  {
    assert Sole(manager.activities, text.id);
    FindBySourceMeaning(manager.activities, manager.order, text.id);
    ghost var before := manager.Model();
    SoleKept(before, OpPrepare(text, id), text.id);
    var prepared := manager.PrepareInput(text, id);
    r := manager.Handle(text, other, true);
  }

  // ---------- Who takes the foreground from whom ----------

  predicate Finishes(op: Op, c: nat) {
    op == OpComplete(c) || op == OpCompleteForeground || op == OpCancel(c)
  }

  lemma ResumedIsNew(m: Manager, c: nat)
    requires Inv(m) && m.foreground == Some(c)
    ensures CompleteProcessed(m, c).foreground != Some(c)
  {
    CompleteKeepsInv(m, c);
    CompletedIs(m, c);
  }

  lemma CompletedIs(m: Manager, c: nat)
    requires Inv(m) && c in m.acts
    ensures c in CompleteProcessed(m, c).acts && CompleteProcessed(m, c).acts[c].status == Completed
  {
    var f := Finish(WithoutStale(m, c), c, Completed);
    BestMeaning(f.acts, f.order);
  }

  /** A non-interruptible foreground gives way to nothing but its own completion or cancellation. */
  lemma NonInterruptibleStays(m: Manager, op: Op, c: nat)
    requires Inv(m) && Fresh(m, op) && m.foreground == Some(c) && !m.acts[c].interruptible
    ensures Apply(m, op).foreground != Some(c) <==> Finishes(op, c)
  {
    if Finishes(op, c) {
      ResumedIsNew(m, c);
    } else {
      OthersKeepForeground(m, op, c);
    }
  }

  lemma OthersKeepForeground(m: Manager, op: Op, c: nat)
    requires Inv(m) && Fresh(m, op) && m.foreground == Some(c) && !m.acts[c].interruptible && !Finishes(op, c)
    ensures Apply(m, op).foreground == Some(c)
  {
    assert Current(m) == Some(m.acts[c]);
  }

  /** Every way in which one foreground is replaced by another in one operation. */
  lemma EveryHandOver(m: Manager, op: Op, c: nat, d: nat)
    requires Inv(m) && Fresh(m, op) && m.foreground == Some(c) && Apply(m, op).foreground == Some(d) && c != d
    ensures var n := Apply(m, op);
      && c in n.acts && d in n.acts
      && (Finishes(op, c) ==> n.acts[c].status == Completed && d in m.acts && m.acts[d].status == Pending)
      && (!Finishes(op, c) ==>
            && m.acts[c].interruptible && n.acts[c].status == Suspended && d !in m.acts
            && (op.OpPrepare? ==> m.acts[c].kind == AutonomousTalk && n.acts[d].kind == ConversationWithUser)
            && (!op.OpPrepare? ==> n.acts[d].priority > m.acts[c].priority))
  {
    assert Current(m) == Some(m.acts[c]);
    if Finishes(op, c) {
      assert !op.OpCancel?;
      CompletedIs(m, c);
      ResumedWasPending(m, c, d);
    } else {
      DisplacedBy(m, op, c, d);
    }
  }

  lemma DisplacedBy(m: Manager, op: Op, c: nat, d: nat)
    requires Inv(m) && Fresh(m, op) && m.foreground == Some(c) && Apply(m, op).foreground == Some(d) && c != d && !Finishes(op, c)
    ensures var n := Apply(m, op);
      && c in n.acts && d in n.acts
      && m.acts[c].interruptible && n.acts[c].status == Suspended && d !in m.acts
      && (op.OpPrepare? ==> m.acts[c].kind == AutonomousTalk && n.acts[d].kind == ConversationWithUser)
      && (!op.OpPrepare? ==> n.acts[d].priority > m.acts[c].priority)
  {
    assert Current(m) == Some(m.acts[c]);
  }

  /** A text of the user displaces autonomous talk, by the priorities given to them. */
  lemma TextDisplacesTalk(m: Manager, c: nat, talk: Event, text: Event, id: nat)
    requires Inv(m) && id !in m.acts && m.foreground == Some(c) && m.acts[c] == FromEvent(talk, c).(status := Active)
    requires talk.kind == CuriosityPeak && text.kind == UserText && FindBySource(m.acts, m.order, text.id).None?
    ensures var n := HandleEvent(m, text, id, true);
      if talk.priority <= text.priority + 44
      then n.foreground == Some(id) && c in n.acts && n.acts[c].status == Suspended
      else n.foreground == Some(c) && id in n.acts && n.acts[id].status == Pending
  {
    assert Current(m) == Some(m.acts[c]);
  }

  /** Of all that events start, exactly autonomous talk and idle observation can be displaced. */
  lemma OnlyTalkAndIdleYield(e: Event, id: nat)
    ensures (exists a: Activity :: ShouldActivate(FromEvent(e, id), a)) <==>
            FromEvent(e, id).kind == AutonomousTalk || FromEvent(e, id).kind == IdleObservation
    ensures FromEvent(e, id).sourceEvent == Some(e.id)
  {
    var stronger := FromEvent(e, id).(priority := FromEvent(e, id).priority + 1);
    assert FromEvent(e, id).interruptible ==> ShouldActivate(FromEvent(e, id), stronger);
  }

  /** What an event starts, and how urgent it is among events of the same priority: the closing
      greeting before the user, the stream's own segments next, autonomous talk and idling last. */
  lemma UrgencyOfEvents(e: Event, id: nat)
    ensures var a := FromEvent(e, id);
      && (a.kind == StreamClosingGreeting <==> e.kind == StreamEnding)
      && (a.kind == ConversationWithUser <==> e.kind == UserText || e.kind == YoutubeComment)
      && (a.kind == StreamOpeningGreeting <==> e.kind == StreamStarted)
      && (a.kind == StreamMainSegment <==> e.kind == MainSegment)
      && (a.kind == StreamCommentResponse <==> e.kind == CommentResponse)
      && (a.kind == StartupReaction <==> e.kind == AppStarted)
      && (a.kind == AutonomousTalk <==> e.kind == CuriosityPeak)
    ensures forall f: Event, n: nat | f.priority == e.priority ::
      var a, b := FromEvent(e, id), FromEvent(f, n);
      a.priority > b.priority <==> Urgency(a.kind, e.kind == SilenceTimeout) > Urgency(b.kind, f.kind == SilenceTimeout)
  {
  }

  function Urgency(kind: ActivityType, silence: bool): nat {
    match kind
    case StreamClosingGreeting => 8
    case ConversationWithUser => 7
    case StreamOpeningGreeting => 6
    case StreamMainSegment => 5
    case StreamCommentResponse => 4
    case StartupReaction => 3
    case AutonomousTalk => 2
    case _ => if silence then 1 else 0
  }

  lemma ResumedWasPending(m: Manager, c: nat, d: nat)
    requires Inv(m) && m.foreground == Some(c) && CompleteProcessed(m, c).foreground == Some(d)
    ensures d in m.acts && m.acts[d].status == Pending
  {
    var f := Finish(WithoutStale(m, c), c, Completed);
    BestMeaning(f.acts, f.order);
  }

  /** Does `id` survive the cancellation of stale autonomous talk before `c` completes? */
  predicate StaysPending(m: Manager, c: nat, id: nat)
    requires c in m.acts
  {
    id in m.acts && id != c && m.acts[id].status == Pending
    && !(m.acts[c].kind == ConversationWithUser && m.acts[id].kind == AutonomousTalk)
  }

  /** Completing the foreground hands it to the highest-priority activity still pending, the
      earliest on ties, or leaves none pending. */
  lemma CompletionHandsOver(m: Manager, c: nat)
    requires Inv(m) && m.foreground == Some(c)
    ensures var n := CompleteProcessed(m, c);
      && (n.foreground.None? ==> forall id | id in m.acts :: !StaysPending(m, c, id))
      && (n.foreground.Some? ==> exists i :: 0 <= i < |m.order| && n.foreground == Some(m.order[i]) && HandedTo(m, c, i))
  {
    var f := Finish(WithoutStale(m, c), c, Completed);
    RemainingPending(m, c);
    BestMeaning(f.acts, f.order);
    if ResumeNext(f).foreground.Some? {
      var i :| 0 <= i < |f.order| && IsBest(f.acts, f.order, i) && Best(f.acts, f.order) == Some(f.order[i]);
      assert HandedTo(m, c, i);
    }
  }

  /** `m.order[i]` is the best of what remains pending when `c` completes. */
  ghost predicate HandedTo(m: Manager, c: nat, i: nat)
    requires c in m.acts && i < |m.order|
  {
    && StaysPending(m, c, m.order[i])
    && forall j | 0 <= j < |m.order| && StaysPending(m, c, m.order[j]) ::
         m.acts[m.order[j]].priority <= m.acts[m.order[i]].priority
         && (j < i ==> m.acts[m.order[j]].priority < m.acts[m.order[i]].priority)
  }

  lemma RemainingPending(m: Manager, c: nat)
    requires Inv(m) && m.foreground == Some(c)
    ensures var f := Finish(WithoutStale(m, c), c, Completed);
      && f.order == m.order && f.foreground.None?
      && (forall id :: id in f.acts <==> id in m.acts)
      && (forall id | id in f.acts :: f.acts[id].priority == m.acts[id].priority)
      && (forall id | id in f.acts :: f.acts[id].status == Pending <==> StaysPending(m, c, id))
  {
  }

  /** When the foreground completes and nothing takes over, nothing is left pending. */
  lemma CompletionLeavesNothingPending(m: Manager, c: nat)
    requires Inv(m) && m.foreground == Some(c) && CompleteProcessed(m, c).foreground.None?
    ensures forall id | id in CompleteProcessed(m, c).acts :: CompleteProcessed(m, c).acts[id].status != Pending
  {
    var f := Finish(WithoutStale(m, c), c, Completed);
    RemainingPending(m, c);
    BestMeaning(f.acts, f.order);
  }

  /** The end of a conversation cancels every autonomous talk that was put off before it. */
  lemma ConversationEndsStaleTalk(m: Manager, c: nat, id: nat)
    requires Inv(m) && c in m.acts && m.acts[c].kind == ConversationWithUser && id in m.acts && Deferred(m.acts[id])
    ensures id in CompleteProcessed(m, c).acts && CompleteProcessed(m, c).acts[id].status == Canceled
  {
    var f := Finish(WithoutStale(m, c), c, Completed);
    BestMeaning(f.acts, f.order);
  }

  // ---------- Pending work with nothing in the foreground ----------

  predicate NothingStuck(m: Manager) {
    m.foreground.None? ==> forall id | id in m.acts :: m.acts[id].status != Pending
  }

  /** Nothing else stops the pending activities from being resumed, but a cancelled foreground
      does: they then wait until some later activity has been activated and completed. */
  lemma StuckOnlyAfterCancel(m: Manager, op: Op)
    requires Inv(m) && Fresh(m, op) && NothingStuck(m)
    ensures NothingStuck(Apply(m, op)) <==>
            !(op.OpCancel? && m.foreground == Some(op.id) && exists id :: id in m.acts && m.acts[id].status == Pending)
  {
    match op {
      case OpPrepare(e, id) =>
      case OpHandle(e, id, allowed) =>
      case OpRegister(a) =>
      case OpComplete(id) => CompleteNotStuck(m, id);
      case OpCompleteForeground => if m.foreground.Some? { CompleteNotStuck(m, m.foreground.value); }
      case OpCancel(id) => CancelStuck(m, id);
      case OpDiscard =>
    }
  }

  lemma CompleteNotStuck(m: Manager, id: nat)
    requires Inv(m) && NothingStuck(m)
    ensures NothingStuck(CompleteProcessed(m, id))
  {
    if m.foreground == Some(id) && CompleteProcessed(m, id).foreground.None? { CompletionLeavesNothingPending(m, id); }
  }

  lemma CancelStuck(m: Manager, id: nat)
    requires Inv(m) && NothingStuck(m)
    ensures NothingStuck(Cancel(m, id)) <==>
            !(m.foreground == Some(id) && exists p :: p in m.acts && m.acts[p].status == Pending)
  {
    var n := Cancel(m, id);
    if m.foreground == Some(id) {
      forall p | p in m.acts && m.acts[p].status == Pending ensures p in n.acts && n.acts[p].status == Pending { }
    }
  }
}
