/**
 How text from a user cancels autonomous talk that other threads are planning, have queued or
 are about to execute. Three threads and the rest of the program interleave freely; a step is
 one lock-protected call. The last fields of the state only record what happened.
*/
module CancellationProtocol {
  import opened Options
  import opened Activities
  import opened PlannedQueue
  import Manager = ActivityManagement

  /** `run_once` of the planner thread. */
  datatype Planner =
    | Resting
    | Sized                                  // queue size looked at
    | Reading(generation: nat)               // generation read, planning under way
    | Holding(generation: nat, item: Planned)  // planned, not yet checked
    | Rejecting(item: Planned)               // check failed, not yet cancelled

  /** The steps of `publish_events` for a text of the user. */
  datatype User =
    | Quiet
    | Prepared                               // conversation prepared
    | Bumped                                 // generation raised
    | Swept                                  // deferred autonomous talk discarded
    | Canceling(rest: seq<Planned>)          // taken off the queue, still to be cancelled

  /** `run_once` of the executor thread. */
  datatype Executor =
    | Waiting
    | Popped(item: Planned)
    | Planning(item: Planned)                // first status check passed
    | ActionsPlanned(item: Planned)
    | Passed(item: Planned, checked: Option<Status>)  // second status check passed
    | Executing(item: Planned)

  datatype Submission = Submission(id: nat, checked: Option<Status>)

  datatype State = State(
    m: Manager.Manager, generation: nat, queue: seq<Planned>,
    planner: Planner, user: User, executor: Executor,
    // What happened so far: per planned activity the generation read before planning it,
    // where it went, the generation up to which the queue was swept, and what was submitted.
    read: map<nat, nat>, rejected: set<nat>, discarded: set<nat>, popped: set<nat>,
    cleared: nat, submissions: seq<Submission>)

  function Id(p: Planned): nat { p.activity.id }

  predicate IsTalk(p: Planned) { p.activity.kind == AutonomousTalk }

  const TALK: Planned -> bool := (p: Planned) => IsTalk(p)

  datatype Move =
    // planner
    | LookAtSize(now: int) | ReadGeneration | PlanNothing | Plan(event: Event, id: nat, createdAt: int)
    | CheckAndPut | CancelRejected
    // user
    | Prepare(event: Event, id: nat) | Bump | SweepDeferred | SweepQueue | CancelNext | FinishText
    // executor
    | Take(now: int) | Check | PlanActions(succeeds: bool) | CheckAgain | Submit | Complete
    // any other caller of the activity manager
    | Other(op: Manager.Op)

  // ---------- Enabled moves ----------

  /** The activity that planning an event is about: one it was prepared or handled as before, or a
      new one. */
  function Target(m: Manager.Manager, e: Event, id: nat): nat {
    match Manager.FindBySource(m.acts, m.order, e.id) case Some(a) => a case None => id
  }

  /** New activities have identifiers never used before, and an event is planned once. */
  predicate Enabled(s: State, v: Move) {
    match v
    case LookAtSize(_) => s.planner.Resting?
    case ReadGeneration => s.planner.Sized?
    case PlanNothing => s.planner.Sized? || s.planner.Reading?
    case Plan(e, id, _) =>
      s.planner.Reading? && id !in s.m.acts && Target(s.m, e, id) !in s.read
    case CheckAndPut => s.planner.Holding?
    case CancelRejected => s.planner.Rejecting?
    case Prepare(e, id) => s.user.Quiet? && e.kind == UserText && id !in s.m.acts
    case Bump => s.user.Prepared?
    case SweepDeferred => s.user.Bumped?
    case SweepQueue => s.user.Swept?
    case CancelNext => s.user.Canceling? && s.user.rest != []
    case FinishText => s.user.Canceling? && s.user.rest == []
    case Take(_) => s.executor.Waiting?
    case Check => s.executor.Popped?
    case PlanActions(_) => s.executor.Planning?
    case CheckAgain => s.executor.ActionsPlanned?
    case Submit => s.executor.Passed?
    case Complete => s.executor.Executing?
    case Other(op) => Manager.Fresh(s.m, op)
  }

  function StatusOf(s: State, id: nat): Option<Status> {
    if id in s.m.acts then Some(s.m.acts[id].status) else None
  }

  /** The executor goes on when the manager has no record or says ACTIVE. */
  predicate MayGoOn(checked: Option<Status>) { checked.None? || checked == Some(Active) }

  // ---------- Effects ----------

  function PlannedItem(a: Activity, createdAt: int): Planned {
    Planned(a, Some(a.priority), createdAt, None)
  }

  function DoPlanner(s: State, v: Move): State
    requires Enabled(s, v)
  {
    match v
    case LookAtSize(now) => s.(queue := Live(s.queue, now), planner := Sized)
    case ReadGeneration => s.(planner := Reading(s.generation))
    case PlanNothing => s.(planner := Resting)
    case Plan(e, id, createdAt) =>
      var n, a := Manager.HandleEvent(s.m, e, id, true), Target(s.m, e, id);
      if a !in n.acts then s
      else s.(m := n, planner := Holding(s.planner.generation, PlannedItem(n.acts[a], createdAt)),
              read := s.read[a := s.planner.generation])
    case CheckAndPut =>
      var item := s.planner.item;
      if s.planner.generation != s.generation && IsTalk(item)
      then s.(planner := Rejecting(item), rejected := s.rejected + {Id(item)})
      else s.(planner := Resting, queue := PlannedQueue.Apply(s.queue, Put(item)).queue)
    case CancelRejected => s.(m := Manager.Cancel(s.m, Id(s.planner.item)), planner := Resting)
    case _ => s
  }

  function Ids(items: seq<Planned>): set<nat> {
    set i | 0 <= i < |items| :: Id(items[i])
  }

  function DoUser(s: State, v: Move): State
    requires Enabled(s, v)
  {
    match v
    case Prepare(e, id) => s.(m := Manager.PrepareUserInput(s.m, e, id), user := Prepared)
    case Bump => s.(generation := s.generation + 1, user := Bumped)
    case SweepDeferred => s.(m := Manager.DiscardDeferred(s.m), user := Swept)
    case SweepQueue =>
      var o := PlannedQueue.Apply(s.queue, DiscardWhere(TALK));
      s.(queue := o.queue, user := Canceling(o.dropped), discarded := s.discarded + Ids(o.dropped), cleared := s.generation)
    case CancelNext => s.(m := Manager.Cancel(s.m, Id(s.user.rest[0])), user := Canceling(s.user.rest[1..]))
    case FinishText => s.(user := Quiet)
    case _ => s
  }

  function DoExecutor(s: State, v: Move): State
    requires Enabled(s, v)
  {
    match v
    case Take(now) =>
      var o := PlannedQueue.Apply(s.queue, Get(now));
      if o.taken == [] then s.(queue := o.queue)
      else s.(queue := o.queue, executor := Popped(o.taken[0]), popped := s.popped + {Id(o.taken[0])})
    case Check =>
      s.(executor := if MayGoOn(StatusOf(s, Id(s.executor.item))) then Planning(s.executor.item) else Waiting)
    case PlanActions(succeeds) =>
      if succeeds then s.(executor := ActionsPlanned(s.executor.item))
      else s.(m := Manager.CompleteProcessed(s.m, Id(s.executor.item)), executor := Waiting)
    case CheckAgain =>
      var checked := StatusOf(s, Id(s.executor.item));
      s.(executor := if MayGoOn(checked) then Passed(s.executor.item, checked) else Waiting)
    case Submit =>
      s.(executor := Executing(s.executor.item),
         submissions := s.submissions + [Submission(Id(s.executor.item), s.executor.checked)])
    case Complete => s.(m := Manager.CompleteProcessed(s.m, Id(s.executor.item)), executor := Waiting)
    case _ => s
  }

  predicate ByPlanner(v: Move) {
    v.LookAtSize? || v.ReadGeneration? || v.PlanNothing? || v.Plan? || v.CheckAndPut? || v.CancelRejected?
  }

  predicate ByUser(v: Move) {
    v.Prepare? || v.Bump? || v.SweepDeferred? || v.SweepQueue? || v.CancelNext? || v.FinishText?
  }

  function Do(s: State, v: Move): State
    requires Enabled(s, v)
  {
    if v.Other? then s.(m := Manager.Apply(s.m, v.op))
    else if ByPlanner(v) then DoPlanner(s, v)
    else if ByUser(v) then DoUser(s, v)
    else DoExecutor(s, v)
  }

  const INITIAL := State(Manager.EMPTY, 0, [], Resting, Quiet, Waiting, map[], {}, {}, {}, 0, [])

  ghost predicate MovesAt(states: seq<State>, moves: seq<Move>, i: nat)
    requires |states| == |moves| + 1 && i < |moves|
  {
    Enabled(states[i], moves[i]) && states[i + 1] == Do(states[i], moves[i])
  }

  ghost predicate IsRun(states: seq<State>, moves: seq<Move>) {
    && |states| == |moves| + 1
    && states[0] == INITIAL
    && forall i: nat | i < |moves| :: MovesAt(states, moves, i)
  }
}
