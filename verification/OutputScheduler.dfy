/**
 The output scheduler as an interleaved step system over any number of tasks.

 A group with a SPEAK action runs as one output unit: gate first, then the locks of all its
 resources in a fixed order, then its actions one by one. Any other action is a task of its
 own that takes only its locks. A step is what a task does between two points where another
 task can run. Locks are `asyncio.Lock`s: a free lock with waiters goes to the first of them.
*/
module OutputScheduler {
  import opened OutputGate

  datatype ActionResource = Body | Eyes | Face | Hands | HeavyBrain | LightBrain | Mouth | Obs | Subtitle

  /** Position of a resource's value in string order. */
  function Rank(r: ActionResource): nat {
    match r
    case Body => 0 case Eyes => 1 case Face => 2 case Hands => 3 case HeavyBrain => 4
    case LightBrain => 5 case Mouth => 6 case Obs => 7 case Subtitle => 8
  }

  const ALL_RESOURCES := [Body, Eyes, Face, Hands, HeavyBrain, LightBrain, Mouth, Obs, Subtitle]

  datatype ActionType = Speak | UpdateSubtitle | ChangeExpression | OtherAction

  datatype ActionPlan = ActionPlan(actionType: ActionType, required: set<ActionResource>)

  datatype Task =
    | OutputUnit(priority: int, plans: seq<ActionPlan>)
    | PlainAction(plan: ActionPlan)

  // ---------- Pure parts ----------

  /** `sorted(resources, key=value)`. */
  function LockOrder(needed: set<ActionResource>): seq<ActionResource> {
    Select(ALL_RESOURCES, needed)
  }

  function Select(rs: seq<ActionResource>, needed: set<ActionResource>): (r: seq<ActionResource>)
    ensures forall x :: x in r <==> x in rs && x in needed
  {
    if rs == [] then [] else (if rs[0] in needed then [rs[0]] else []) + Select(rs[1..], needed)
  }

  predicate Ascending(rs: seq<ActionResource>) {
    forall i, j | 0 <= i < j < |rs| :: Rank(rs[i]) < Rank(rs[j])
  }

  lemma {:induction false} SelectAscending(rs: seq<ActionResource>, needed: set<ActionResource>)
    requires Ascending(rs)
    ensures Ascending(Select(rs, needed))
  {
    if rs != [] {
      SelectAscending(rs[1..], needed);
      var rest := Select(rs[1..], needed);
      forall i | 0 <= i < |rest| ensures Rank(rs[0]) < Rank(rest[i]) {
        assert rest[i] in rest;
        var j :| 0 <= j < |rs[1..]| && rs[1..][j] == rest[i];
        assert rs[j + 1] == rest[i];
      }
    }
  }

  /** The locks are taken in strictly increasing order, each once, and all that are needed. */
  lemma LockOrderCorrect(needed: set<ActionResource>)
    ensures Ascending(LockOrder(needed))
    ensures forall r :: r in LockOrder(needed) <==> r in needed
  {
    SelectAscending(ALL_RESOURCES, needed);
    forall r ensures r in ALL_RESOURCES { assert ALL_RESOURCES[Rank(r)] == r; }
  }

  function Resources(task: Task): set<ActionResource> {
    match task
    case OutputUnit(_, plans) => set i, r | 0 <= i < |plans| && r in plans[i].required :: r
    case PlainAction(plan) => plan.required
  }

  predicate IsVisual(p: ActionPlan) { p.actionType == UpdateSubtitle || p.actionType == ChangeExpression }

  function Visual(plans: seq<ActionPlan>, wanted: bool): seq<ActionPlan> {
    if plans == [] then []
    else (if IsVisual(plans[0]) == wanted then [plans[0]] else []) + Visual(plans[1..], wanted)
  }

  /** `_synchronized_action_order`: a stable sort on "not visual". */
  function SynchronizedOrder(plans: seq<ActionPlan>): seq<ActionPlan> {
    Visual(plans, true) + Visual(plans, false)
  }

  lemma VisualOfCons(p: ActionPlan, rest: seq<ActionPlan>, w: bool)
    ensures Visual([p] + rest, w) == (if IsVisual(p) == w then [p] else []) + Visual(rest, w)
  {
    assert ([p] + rest)[1..] == rest;
  }

  lemma {:induction false} VisualOfConcat(a: seq<ActionPlan>, b: seq<ActionPlan>, w: bool)
    ensures Visual(a + b, w) == Visual(a, w) + Visual(b, w)
  {
    if a == [] {
      assert a + b == b;
    } else {
      VisualOfConcat(a[1..], b, w);
      assert a + b == [a[0]] + (a[1..] + b);
      VisualOfCons(a[0], a[1..] + b, w);
      VisualOfCons(a[0], a[1..], w);
      assert a == [a[0]] + a[1..];
    }
  }

  lemma {:induction false} VisualTwice(plans: seq<ActionPlan>, w: bool, x: bool)
    ensures Visual(Visual(plans, w), x) == if w == x then Visual(plans, w) else []
  {
    if plans != [] {
      VisualTwice(plans[1..], w, x);
      VisualOfConcat(if IsVisual(plans[0]) == w then [plans[0]] else [], Visual(plans[1..], w), x);
    }
  }

  /** Nothing is dropped or repeated, each kind keeps its own order, and no visual action comes after another kind. */
  lemma SynchronizedOrderCorrect(plans: seq<ActionPlan>)
    ensures multiset(SynchronizedOrder(plans)) == multiset(plans)
    ensures forall p :: p in SynchronizedOrder(plans) <==> p in plans
    ensures forall w :: Visual(SynchronizedOrder(plans), w) == Visual(plans, w)
    ensures forall i, j | 0 <= i < j < |SynchronizedOrder(plans)| ::
              IsVisual(SynchronizedOrder(plans)[j]) ==> IsVisual(SynchronizedOrder(plans)[i])
  {
    VisualParts(plans);
    forall w { KindsKept(plans, w); }
    VisualFirst(plans);
    forall p ensures p in SynchronizedOrder(plans) <==> p in plans {
      assert p in multiset(SynchronizedOrder(plans)) <==> p in multiset(plans);
    }
  }

  lemma KindsKept(plans: seq<ActionPlan>, w: bool)
    ensures Visual(SynchronizedOrder(plans), w) == Visual(plans, w)
  {
    VisualOfConcat(Visual(plans, true), Visual(plans, false), w);
    VisualTwice(plans, true, w);
    VisualTwice(plans, false, w);
  }

  lemma VisualFirst(plans: seq<ActionPlan>)
    ensures var order := SynchronizedOrder(plans);
            forall i, j | 0 <= i < j < |order| :: IsVisual(order[j]) ==> IsVisual(order[i])
  {
    VisualKind(plans, true);
    VisualKind(plans, false);
  }

  lemma VisualParts(plans: seq<ActionPlan>)
    ensures multiset(Visual(plans, true)) + multiset(Visual(plans, false)) == multiset(plans)
    ensures forall w, i | 0 <= i < |Visual(plans, w)| :: IsVisual(Visual(plans, w)[i]) == w
  {
    forall p ensures (multiset(Visual(plans, true)) + multiset(Visual(plans, false)))[p] == multiset(plans)[p] {
      VisualCount(plans, p);
    }
    forall w ensures forall i | 0 <= i < |Visual(plans, w)| :: IsVisual(Visual(plans, w)[i]) == w {
      VisualKind(plans, w);
    }
  }

  lemma {:induction false} VisualKind(plans: seq<ActionPlan>, w: bool)
    ensures forall i | 0 <= i < |Visual(plans, w)| :: IsVisual(Visual(plans, w)[i]) == w
  {
    if plans != [] { VisualKind(plans[1..], w); }
  }

  lemma {:induction false} VisualCount(plans: seq<ActionPlan>, p: ActionPlan)
    ensures multiset(Visual(plans, true))[p] + multiset(Visual(plans, false))[p] == multiset(plans)[p]
  {
    if plans != [] {
      var h, t := plans[0], plans[1..];
      VisualCount(t, p);
      assert plans == [h] + t;
      assert Visual(plans, IsVisual(h)) == [h] + Visual(t, IsVisual(h));
      assert Visual(plans, !IsVisual(h)) == Visual(t, !IsVisual(h));
    }
  }

  /** A task as the scheduler runs it: the locks in the order taken, the actions in order. */
  datatype Job = Job(unit: bool, priority: int, locks: seq<ActionResource>, script: seq<ActionPlan>)

  function Prepare(task: Task): Job {
    match task
    case OutputUnit(priority, plans) => Job(true, priority, LockOrder(Resources(task)), SynchronizedOrder(plans))
    case PlainAction(plan) => Job(false, 0, LockOrder(plan.required), [plan])
  }

  /** All that safety and liveness ask of a job: strictly increasing locks that cover its actions. */
  predicate Proper(job: Job) {
    Ascending(job.locks) && forall j, r | 0 <= j < |job.script| && r in job.script[j].required :: r in job.locks
  }

  lemma PreparedIsProper(task: Task)
    ensures Proper(Prepare(task))
    ensures forall r :: r in Prepare(task).locks <==> r in Resources(task)
  {
    LockOrderCorrect(Resources(task));
    if task.OutputUnit? {
      SynchronizedOrderCorrect(task.plans);
      forall j, r | 0 <= j < |Prepare(task).script| && r in Prepare(task).script[j].required ensures r in Prepare(task).locks {
        assert Prepare(task).script[j] in task.plans;
      }
    }
  }

  // ---------- Groups ----------

  /** What is submitted: the actions of one answer, with its output priority. */
  datatype Group = Group(priority: int, plans: seq<ActionPlan>)

  predicate Speaks(g: Group) { exists i :: 0 <= i < |g.plans| && g.plans[i].actionType == Speak }

  /** A group that speaks is one unit; the actions of any other are gathered. */
  function TasksOf(g: Group): seq<Task> {
    if Speaks(g) then [OutputUnit(g.priority, g.plans)]
    else seq(|g.plans|, i requires 0 <= i < |g.plans| => PlainAction(g.plans[i]))
  }

  /** The tasks of the group are among all tasks, from `first` on. */
  predicate Submitted(tasks: seq<Task>, g: Group, first: nat) {
    first + |TasksOf(g)| <= |tasks| && forall k | 0 <= k < |TasksOf(g)| :: tasks[first + k] == TasksOf(g)[k]
  }

  // ---------- States ----------

  datatype Pc =
    | Idle
    | Waiting                            // inside the gate's `acquire`
    | Locking(next: nat, queued: bool)   // `next` locks taken; queued on the following one?
    | Running(done: nat)                 // all locks held, `done` actions executed
    | Releasing                          // locks given back, gate not yet
    | Done

  /** An action that was executed, and the task that did. */
  datatype Executed = Executed(task: nat, action: ActionPlan)

  datatype State = State(
    pcs: seq<Pc>,
    gate: Gate,
    holder: map<ActionResource, nat>,
    queues: map<ActionResource, seq<nat>>,
    executed: seq<Executed>)

  function Queue(s: State, r: ActionResource): seq<nat> {
    if r in s.queues then s.queues[r] else []
  }

  function Initial(jobs: seq<Job>): State {
    State(seq(|jobs|, _ => Idle), EMPTY_GATE, map[], map[], [])
  }

  predicate Takeable(s: State, t: nat, r: ActionResource, queued: bool) {
    r !in s.holder && (if queued then Queue(s, r) != [] && Queue(s, r)[0] == t else Queue(s, r) == [])
  }

  /** Can task `t` do something now? A parked waiter, or one queued on a lock that is not
      its turn, cannot. */
  predicate Enabled(jobs: seq<Job>, s: State, t: nat)
    requires |s.pcs| == |jobs|
  {
    t < |jobs| &&
    match s.pcs[t]
    case Waiting => t !in s.gate.parked
    case Locking(k, queued) => queued ==> k < |jobs[t].locks| && Takeable(s, t, jobs[t].locks[k], true)
    case Done => false
    case _ => true
  }

  // ---------- Steps ----------

  function SetPc(s: State, t: nat, pc: Pc): State
    requires t < |s.pcs|
  {
    s.(pcs := s.pcs[t := pc])
  }

  function Start(jobs: seq<Job>, s: State, t: nat): State
    requires |s.pcs| == |jobs| && t < |jobs|
  {
    if !jobs[t].unit then SetPc(s, t, Locking(0, false))
    else
      var g := Enter(s.gate, jobs[t].priority, t);
      SetPc(s, t, if g.active && !s.gate.active then Locking(0, false) else Waiting).(gate := g)
  }

  function Wake(s: State, t: nat): State
    requires t < |s.pcs|
  {
    var g := Try(s.gate, t);
    SetPc(s, t, if g.active && !s.gate.active then Locking(0, false) else Waiting).(gate := g)
  }

  /** One `await lock.acquire()`, or the end of the acquisition loop. */
  function Lock(jobs: seq<Job>, s: State, t: nat): State
    requires |s.pcs| == |jobs| && t < |jobs| && s.pcs[t].Locking?
  {
    var k, queued, order := s.pcs[t].next, s.pcs[t].queued, jobs[t].locks;
    if k >= |order| then SetPc(s, t, Running(0))
    else
      var r := order[k];
      if Takeable(s, t, r, queued) then
        SetPc(s, t, Locking(k + 1, false)).(holder := s.holder[r := t],
                                             queues := if queued then s.queues[r := Queue(s, r)[1..]] else s.queues)
      else if queued then s
      else SetPc(s, t, Locking(k, true)).(queues := s.queues[r := Queue(s, r) + [t]])
  }

  /** Execute the next action of the script, or give all locks back. */
  function Run(jobs: seq<Job>, s: State, t: nat): State
    requires |s.pcs| == |jobs| && t < |jobs| && s.pcs[t].Running?
  {
    var d := s.pcs[t].done;
    if d < |jobs[t].script| then SetPc(s, t, Running(d + 1)).(executed := s.executed + [Executed(t, jobs[t].script[d])])
    else SetPc(s, t, if jobs[t].unit then Releasing else Done)
           .(holder := map r | r in s.holder && s.holder[r] != t :: s.holder[r])
  }

  function Step(jobs: seq<Job>, s: State, t: nat): State
    requires |s.pcs| == |jobs| && t < |jobs|
  {
    match s.pcs[t]
    case Idle => Start(jobs, s, t)
    case Waiting => Wake(s, t)
    case Locking(_, _) => Lock(jobs, s, t)
    case Running(_) => Run(jobs, s, t)
    case Releasing => SetPc(s, t, Done).(gate := Release(s.gate))
    case Done => s
  }

  // ---------- Runs ----------

  /** `states[i+1]` results from an enabled step of task `picks[i]`. */
  ghost predicate IsPath(jobs: seq<Job>, states: seq<State>, picks: seq<nat>) {
    && |states| == |picks| + 1
    && (forall i | 0 <= i < |states| :: |states[i].pcs| == |jobs|)
    && (forall i | 0 <= i < |picks| :: Enabled(jobs, states[i], picks[i]) && states[i + 1] == Step(jobs, states[i], picks[i]))
  }

  ghost predicate IsRun(jobs: seq<Job>, states: seq<State>, picks: seq<nat>) {
    IsPath(jobs, states, picks) && states[0] == Initial(jobs)
  }

  // ---------- Result of a group ----------

  datatype ActionStatus = NotStarted | Completed | Failed | Canceled
  datatype OutputStatus = OutputCompleted | PartiallyCompleted | OutputFailed | OutputCanceled

  function Count(results: seq<ActionStatus>, status: ActionStatus): nat {
    multiset(results)[status]
  }

  /** The status computed by `_build_output_result`. */
  function BuildStatus(results: seq<ActionStatus>, forced: bool): OutputStatus {
    var completed, failed, canceled := Count(results, Completed), Count(results, Failed), Count(results, Canceled);
    if forced then OutputCanceled
    else if completed == |results| then OutputCompleted
    else if completed > 0 && (failed > 0 || canceled > 0) then PartiallyCompleted
    else if canceled > 0 && failed == 0 then OutputCanceled
    else OutputFailed
  }

  /** The reported status in terms of the individual actions. */
  lemma BuildStatusMeaning(results: seq<ActionStatus>)
    ensures BuildStatus(results, false) == OutputCompleted <==> forall i | 0 <= i < |results| :: results[i] == Completed
    ensures BuildStatus(results, false) == PartiallyCompleted <==>
              Completed in results && (Failed in results || Canceled in results)
    ensures BuildStatus(results, false) == OutputCanceled <==>
              Canceled in results && Failed !in results && Completed !in results
    ensures BuildStatus(results, true) == OutputCanceled
  {
    CompletedCount(results);
  }

  lemma {:induction false} CompletedCount(results: seq<ActionStatus>)
    ensures Count(results, Completed) <= |results|
    ensures Count(results, Completed) == |results| <==> forall i | 0 <= i < |results| :: results[i] == Completed
  {
    if results != [] {
      CompletedCount(results[1..]);
      assert results == [results[0]] + results[1..];
      assert (forall i | 0 <= i < |results| :: results[i] == Completed) <==>
             results[0] == Completed && forall i | 0 <= i < |results[1..]| :: results[1..][i] == Completed;
    }
  }
}
