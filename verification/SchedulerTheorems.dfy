/**
 Safety and liveness of the output scheduler, for any number of output units and plain
 actions and for every interleaving. Runs have no cancelled tasks; what a cancellation of a
 waiting task does is stated at the end.
*/
module SchedulerTheorems {
  import opened OutputGate
  import opened OutputScheduler

  // ---------- Invariants ----------

  predicate InGate(job: Job, pc: Pc) {
    job.unit && (pc.Locking? || pc.Running? || pc.Releasing?)
  }

  predicate Holds(job: Job, pc: Pc, r: ActionResource) {
    match pc
    case Locking(k, _) => k <= |job.locks| && r in job.locks[..k]
    case Running(_) => r in job.locks
    case _ => false
  }

  ghost predicate GateInv(jobs: seq<Job>, s: State) {
    && |s.pcs| == |jobs|
    && OutputGate.Inv(s.gate)
    && (forall t: nat :: Waits(s.gate, t) <==> t < |jobs| && s.pcs[t] == Waiting)
    && (forall w | w in s.gate.waiting :: w.token < |jobs| && jobs[w.token].unit && w.sortPriority == -jobs[w.token].priority)
    && (forall t | 0 <= t < |jobs| && s.pcs[t] == Waiting :: jobs[t].unit)
    && (forall t | 0 <= t < |jobs| && s.pcs[t] == Releasing :: jobs[t].unit)
    // The gate is taken exactly when one unit is between `acquire` and `release`.
    && (forall t | 0 <= t < |jobs| && InGate(jobs[t], s.pcs[t]) :: s.gate.active)
    && (s.gate.active ==> exists t :: 0 <= t < |jobs| && InGate(jobs[t], s.pcs[t]))
    && (forall t, u | 0 <= t < |jobs| && 0 <= u < |jobs| && InGate(jobs[t], s.pcs[t]) && InGate(jobs[u], s.pcs[u]) :: t == u)
  }

  ghost predicate PcInv(jobs: seq<Job>, s: State) {
    && |s.pcs| == |jobs|
    && (forall t | 0 <= t < |jobs| && s.pcs[t].Locking? ::
          s.pcs[t].next <= |jobs[t].locks| && (s.pcs[t].queued ==> s.pcs[t].next < |jobs[t].locks|))
    && (forall t | 0 <= t < |jobs| && s.pcs[t].Running? :: s.pcs[t].done <= |jobs[t].script|)
  }

  /** `holder` records exactly who holds what. */
  ghost predicate HolderInv(jobs: seq<Job>, s: State) {
    && |s.pcs| == |jobs|
    && (forall r | r in s.holder :: s.holder[r] < |jobs| && Holds(jobs[s.holder[r]], s.pcs[s.holder[r]], r))
    && (forall t, r | 0 <= t < |jobs| && Holds(jobs[t], s.pcs[t], r) :: r in s.holder && s.holder[r] == t)
  }

  /** The lock queues hold exactly the tasks queued on them, once each. */
  ghost predicate QueueInv(jobs: seq<Job>, s: State) {
    |s.pcs| == |jobs| && forall r :: QueueRight(jobs, s, r)
  }

  predicate QueueRight(jobs: seq<Job>, s: State, r: ActionResource)
    requires |s.pcs| == |jobs|
  {
    && (forall i | 0 <= i < |Queue(s, r)| :: QueuedOn(jobs, s, Queue(s, r)[i], r))
    && (forall t | 0 <= t < |jobs| && QueuedOn(jobs, s, t, r) :: t in Queue(s, r))
    && (forall i, j | 0 <= i < j < |Queue(s, r)| :: Queue(s, r)[i] != Queue(s, r)[j])
  }

  ghost predicate LockInv(jobs: seq<Job>, s: State) {
    PcInv(jobs, s) && HolderInv(jobs, s) && QueueInv(jobs, s)
  }

  predicate QueuedOn(jobs: seq<Job>, s: State, t: nat, r: ActionResource)
    requires |s.pcs| == |jobs|
  {
    t < |jobs| && s.pcs[t].Locking? && s.pcs[t].queued
    && s.pcs[t].next < |jobs[t].locks| && jobs[t].locks[s.pcs[t].next] == r
  }

  ghost predicate Inv(jobs: seq<Job>, s: State) {
    GateInv(jobs, s) && LockInv(jobs, s)
  }

  lemma InitialInv(jobs: seq<Job>)
    ensures Inv(jobs, Initial(jobs))
  {
  }

  // ---------- The gate part is kept ----------

  lemma StartKeepsGate(jobs: seq<Job>, s: State, t: nat)
    requires GateInv(jobs, s) && t < |jobs| && s.pcs[t] == Idle
    ensures GateInv(jobs, Start(jobs, s, t))
  {
    var s' := Start(jobs, s, t);
    SamePcsElsewhere(jobs, s, s', t);
    if jobs[t].unit {
      EnterKeepsInv(s.gate, jobs[t].priority, t);
      GrantedOrWaits(s.gate, jobs[t].priority, t);
      EnteredWaiters(s.gate, jobs[t].priority, t);
      EnteredOwner(jobs, s, s', t);
    }
  }

  lemma EnteredWaiters(g: Gate, priority: int, token: nat)
    ensures forall x | x in Enter(g, priority, token).waiting :: x in g.waiting || (x.token == token && x.sortPriority == -priority)
  {
    var w := Waiter(-priority, g.nextSequence, token);
    PushMembers(g.waiting, w);
    forall x | x in Enter(g, priority, token).waiting ensures x in g.waiting || x == w {
      assert x in Push(g.waiting, w);
    }
  }

  lemma EnteredOwner(jobs: seq<Job>, s: State, s': State, t: nat)
    requires GateInv(jobs, s) && t < |jobs| && s.pcs[t] == Idle && jobs[t].unit && |s'.pcs| == |jobs|
    requires s'.pcs == s.pcs[t := if s'.gate.active && !s.gate.active then Locking(0, false) else Waiting]
    requires s.gate.active ==> s'.gate.active
    ensures s'.gate.active <==> exists u :: 0 <= u < |jobs| && InGate(jobs[u], s'.pcs[u])
    ensures forall u, v | 0 <= u < |jobs| && 0 <= v < |jobs| && InGate(jobs[u], s'.pcs[u]) && InGate(jobs[v], s'.pcs[v]) :: u == v
  {
    if s.gate.active {
      var o :| 0 <= o < |jobs| && InGate(jobs[o], s.pcs[o]);
      assert InGate(jobs[o], s'.pcs[o]);
    } else if s'.gate.active {
      assert InGate(jobs[t], s'.pcs[t]);
    }
  }

  /** A thread that enters is either let through or left waiting. */
  lemma GrantedOrWaits(g: Gate, priority: int, token: nat)
    requires OutputGate.Inv(g) && !Waits(g, token)
    ensures g.active ==> Enter(g, priority, token).active && Waits(Enter(g, priority, token), token)
    ensures !g.active ==> (Enter(g, priority, token).active <==> !Waits(Enter(g, priority, token), token))
  {
    var w := Waiter(-priority, g.nextSequence, token);
    EnterKeepsInv(g, priority, token);
    PushSorted(g.waiting, w);
    HeadOrNot(Push(g.waiting, w), w);
    var h := Push(g.waiting, w);
    assert h[0].token == token <==> h[0] == w by {
      assert h[0] in h;
      assert forall x | x in g.waiting :: Waits(g, x.token);
    }
    assert forall x | x in g.waiting && !Before(w, x) :: x != w && x in h;
  }

  lemma SamePcsElsewhere(jobs: seq<Job>, s: State, s': State, t: nat)
    requires |s.pcs| == |s'.pcs| == |jobs| && t < |jobs| && s'.pcs == s.pcs[t := s'.pcs[t]]
    ensures forall u | 0 <= u < |jobs| && u != t :: s'.pcs[u] == s.pcs[u]
  {
  }

  lemma WakeKeepsGate(jobs: seq<Job>, s: State, t: nat)
    requires GateInv(jobs, s) && t < |jobs| && s.pcs[t] == Waiting
    ensures GateInv(jobs, Wake(s, t))
  {
    var s' := Wake(s, t);
    TryKeepsInv(s.gate, t);
    SamePcsElsewhere(jobs, s, s', t);
    forall x | x in s'.gate.waiting ensures x in s.gate.waiting {
    }
  }

  /** Steps that do not touch the gate, and leave each task on its side of it. */
  lemma OtherKeepsGate(jobs: seq<Job>, s: State, s': State, t: nat)
    requires GateInv(jobs, s) && t < |jobs| && |s'.pcs| == |jobs| && s'.gate == s.gate
    requires s'.pcs == s.pcs[t := s'.pcs[t]]
    requires InGate(jobs[t], s.pcs[t]) == InGate(jobs[t], s'.pcs[t])
    requires s.pcs[t] != Waiting && s'.pcs[t] != Waiting && (s'.pcs[t] == Releasing ==> jobs[t].unit)
    ensures GateInv(jobs, s')
  {
    SamePcsElsewhere(jobs, s, s', t);
    forall u | 0 <= u < |jobs| ensures InGate(jobs[u], s'.pcs[u]) == InGate(jobs[u], s.pcs[u]) { }
    if s.gate.active {
      var u :| 0 <= u < |jobs| && InGate(jobs[u], s.pcs[u]);
      assert InGate(jobs[u], s'.pcs[u]);
    }
  }

  lemma ReleaseKeepsGate(jobs: seq<Job>, s: State, t: nat)
    requires GateInv(jobs, s) && t < |jobs| && s.pcs[t] == Releasing
    ensures GateInv(jobs, Step(jobs, s, t))
  {
    var s' := Step(jobs, s, t);
    ReleaseKeepsInv(s.gate);
    SamePcsElsewhere(jobs, s, s', t);
    assert InGate(jobs[t], s.pcs[t]);
    forall u ensures Waits(s'.gate, u) <==> Waits(s.gate, u) { }
  }

  lemma StepKeepsGate(jobs: seq<Job>, s: State, t: nat)
    requires Inv(jobs, s) && Enabled(jobs, s, t)
    ensures GateInv(jobs, Step(jobs, s, t))
  {
    match s.pcs[t]
    case Idle => StartKeepsGate(jobs, s, t);
    case Waiting => WakeKeepsGate(jobs, s, t);
    case Locking(_, _) => OtherKeepsGate(jobs, s, Step(jobs, s, t), t);
    case Running(_) => OtherKeepsGate(jobs, s, Step(jobs, s, t), t);
    case Releasing => ReleaseKeepsGate(jobs, s, t);
  }

  // ---------- The lock part is kept ----------

  /** Only task `t` moves, and holdings and queues do not change. */
  lemma NoLockChange(jobs: seq<Job>, s: State, s': State, t: nat)
    requires LockInv(jobs, s) && t < |jobs| && |s'.pcs| == |jobs|
    requires s'.holder == s.holder && s'.queues == s.queues && s'.pcs == s.pcs[t := s'.pcs[t]]
    requires forall r :: Holds(jobs[t], s'.pcs[t], r) == Holds(jobs[t], s.pcs[t], r)
    requires s'.pcs[t].Locking? ==> s'.pcs[t].next <= |jobs[t].locks| && !s'.pcs[t].queued
    requires s'.pcs[t].Running? ==> s'.pcs[t].done <= |jobs[t].script|
    requires !(s.pcs[t].Locking? && s.pcs[t].queued)
    ensures LockInv(jobs, s')
  {
    SamePcsElsewhere(jobs, s, s', t);
    assert forall r :: Queue(s', r) == Queue(s, r);
    forall u, r | 0 <= u < |jobs| ensures Holds(jobs[u], s'.pcs[u], r) == Holds(jobs[u], s.pcs[u], r) { }
    forall u: nat, r ensures QueuedOn(jobs, s', u, r) == QueuedOn(jobs, s, u, r) { }
    forall r ensures QueueRight(jobs, s', r) { assert QueueRight(jobs, s, r); }
  }

  lemma TakePrefix(job: Job, k: nat, r: ActionResource)
    requires k < |job.locks|
    ensures r in job.locks[..k + 1] <==> r in job.locks[..k] || r == job.locks[k]
  {
    assert job.locks[..k + 1] == job.locks[..k] + [job.locks[k]];
  }

  lemma LockKeepsLocks(jobs: seq<Job>, s: State, t: nat)
    requires LockInv(jobs, s) && Enabled(jobs, s, t) && s.pcs[t].Locking?
    ensures LockInv(jobs, Lock(jobs, s, t))
  {
    var k, queued, order := s.pcs[t].next, s.pcs[t].queued, jobs[t].locks;
    if k >= |order| {
      assert order[..k] == order;
      NoLockChange(jobs, s, Lock(jobs, s, t), t);
    } else if Takeable(s, t, order[k], queued) {
      TakeKeepsLocks(jobs, s, t);
    } else {
      EnqueueKeepsLocks(jobs, s, t);
    }
  }

  lemma TakeKeepsLocks(jobs: seq<Job>, s: State, t: nat)
    requires LockInv(jobs, s) && t < |jobs| && s.pcs[t].Locking? && s.pcs[t].next < |jobs[t].locks|
    requires Takeable(s, t, jobs[t].locks[s.pcs[t].next], s.pcs[t].queued)
    ensures LockInv(jobs, Lock(jobs, s, t))
  {
    var s' := Lock(jobs, s, t);
    SamePcsElsewhere(jobs, s, s', t);
    TakeHolder(jobs, s, s', t);
    TakeQueue(jobs, s, s', t);
  }

  lemma TakeHolder(jobs: seq<Job>, s: State, s': State, t: nat)
    requires HolderInv(jobs, s) && t < |jobs| && s.pcs[t].Locking? && s.pcs[t].next < |jobs[t].locks|
    requires jobs[t].locks[s.pcs[t].next] !in s.holder
    requires s'.pcs == s.pcs[t := Locking(s.pcs[t].next + 1, false)] && s'.holder == s.holder[jobs[t].locks[s.pcs[t].next] := t]
    ensures HolderInv(jobs, s')
  {
    var k := s.pcs[t].next;
    forall u, r | 0 <= u < |jobs|
      ensures Holds(jobs[u], s'.pcs[u], r) <==> Holds(jobs[u], s.pcs[u], r) || (u == t && r == jobs[t].locks[k])
    {
      TakePrefix(jobs[t], k, r);
    }
  }

  lemma TakeQueue(jobs: seq<Job>, s: State, s': State, t: nat)
    requires QueueInv(jobs, s) && t < |jobs| && s.pcs[t].Locking? && s.pcs[t].next < |jobs[t].locks|
    requires Takeable(s, t, jobs[t].locks[s.pcs[t].next], s.pcs[t].queued)
    requires s'.pcs == s.pcs[t := Locking(s.pcs[t].next + 1, false)]
    requires s'.queues == if s.pcs[t].queued then s.queues[jobs[t].locks[s.pcs[t].next] := Queue(s, jobs[t].locks[s.pcs[t].next])[1..]] else s.queues
    ensures QueueInv(jobs, s')
  {
    var r0, queued := jobs[t].locks[s.pcs[t].next], s.pcs[t].queued;
    forall r ensures Queue(s', r) == if queued && r == r0 then Queue(s, r)[1..] else Queue(s, r) { }
    forall u: nat, r ensures QueuedOn(jobs, s', u, r) <==> QueuedOn(jobs, s, u, r) && u != t { }
    forall r ensures QueueRight(jobs, s', r) {
      assert QueueRight(jobs, s, r);
      if queued && r == r0 { TakenRight(jobs, s, s', t, r); }
    }
  }

  lemma TakenRight(jobs: seq<Job>, s: State, s': State, t: nat, r: ActionResource)
    requires |s.pcs| == |s'.pcs| == |jobs| && QueueRight(jobs, s, r)
    requires Queue(s, r) != [] && Queue(s, r)[0] == t && Queue(s', r) == Queue(s, r)[1..]
    requires forall u: nat :: QueuedOn(jobs, s', u, r) <==> QueuedOn(jobs, s, u, r) && u != t
    ensures QueueRight(jobs, s', r)
  {
    forall u | 0 <= u < |jobs| && QueuedOn(jobs, s', u, r) ensures u in Queue(s', r) {
      var i :| 0 <= i < |Queue(s, r)| && Queue(s, r)[i] == u;
      assert i > 0 && Queue(s', r)[i - 1] == u;
    }
  }

  lemma EnqueueKeepsLocks(jobs: seq<Job>, s: State, t: nat)
    requires LockInv(jobs, s) && t < |jobs| && s.pcs[t].Locking? && s.pcs[t].next < |jobs[t].locks|
    requires !s.pcs[t].queued && !Takeable(s, t, jobs[t].locks[s.pcs[t].next], false)
    ensures LockInv(jobs, Lock(jobs, s, t))
  {
    var s' := Lock(jobs, s, t);
    SamePcsElsewhere(jobs, s, s', t);
    forall u, r | 0 <= u < |jobs| ensures Holds(jobs[u], s'.pcs[u], r) == Holds(jobs[u], s.pcs[u], r) { }
    EnqueueQueue(jobs, s, s', t);
  }

  lemma EnqueueQueue(jobs: seq<Job>, s: State, s': State, t: nat)
    requires QueueInv(jobs, s) && t < |jobs| && s.pcs[t].Locking? && s.pcs[t].next < |jobs[t].locks| && !s.pcs[t].queued
    requires s'.pcs == s.pcs[t := Locking(s.pcs[t].next, true)]
    requires s'.queues == s.queues[jobs[t].locks[s.pcs[t].next] := Queue(s, jobs[t].locks[s.pcs[t].next]) + [t]]
    ensures QueueInv(jobs, s')
  {
    var r0 := jobs[t].locks[s.pcs[t].next];
    forall r ensures Queue(s', r) == if r == r0 then Queue(s, r) + [t] else Queue(s, r) { }
    forall u: nat, r ensures QueuedOn(jobs, s', u, r) <==> QueuedOn(jobs, s, u, r) || (u == t && r == r0) { }
    forall r ensures QueueRight(jobs, s', r) {
      assert QueueRight(jobs, s, r);
      if r == r0 { EnqueuedRight(jobs, s, s', t, r); }
    }
  }

  lemma EnqueuedRight(jobs: seq<Job>, s: State, s': State, t: nat, r: ActionResource)
    requires |s.pcs| == |s'.pcs| == |jobs| && t < |jobs| && QueueRight(jobs, s, r) && !QueuedOn(jobs, s, t, r)
    requires Queue(s', r) == Queue(s, r) + [t]
    requires forall u: nat :: QueuedOn(jobs, s', u, r) <==> QueuedOn(jobs, s, u, r) || u == t
    ensures QueueRight(jobs, s', r)
  {
    forall i | 0 <= i < |Queue(s, r)| ensures Queue(s, r)[i] != t {
      assert QueuedOn(jobs, s, Queue(s, r)[i], r);
    }
  }

  lemma GiveBackKeepsLocks(jobs: seq<Job>, s: State, t: nat)
    requires LockInv(jobs, s) && t < |jobs| && s.pcs[t].Running? && s.pcs[t].done >= |jobs[t].script|
    ensures LockInv(jobs, Run(jobs, s, t))
  {
    var s' := Run(jobs, s, t);
    SamePcsElsewhere(jobs, s, s', t);
    assert forall r :: Queue(s', r) == Queue(s, r);
    forall u, r | 0 <= u < |jobs| ensures Holds(jobs[u], s'.pcs[u], r) <==> u != t && Holds(jobs[u], s.pcs[u], r) { }
    forall u: nat, r ensures QueuedOn(jobs, s', u, r) == QueuedOn(jobs, s, u, r) { }
    forall r ensures QueueRight(jobs, s', r) { assert QueueRight(jobs, s, r); }
  }

  lemma StepKeepsLocks(jobs: seq<Job>, s: State, t: nat)
    requires Inv(jobs, s) && Enabled(jobs, s, t)
    ensures LockInv(jobs, Step(jobs, s, t))
  {
    match s.pcs[t]
    case Locking(_, _) => LockKeepsLocks(jobs, s, t);
    case Running(d) =>
      if d < |jobs[t].script| { NoLockChange(jobs, s, Step(jobs, s, t), t); } else { GiveBackKeepsLocks(jobs, s, t); }
    case Idle => NoLockChange(jobs, s, Step(jobs, s, t), t);
    case Waiting => NoLockChange(jobs, s, Step(jobs, s, t), t);
    case Releasing => NoLockChange(jobs, s, Step(jobs, s, t), t);
  }

  /** Every step keeps the invariant. */
  lemma StepKeepsInv(jobs: seq<Job>, s: State, t: nat)
    requires Inv(jobs, s) && Enabled(jobs, s, t)
    ensures Inv(jobs, Step(jobs, s, t))
  {
    StepKeepsGate(jobs, s, t);
    StepKeepsLocks(jobs, s, t);
  }

  /** Every state of every run satisfies the invariant. */
  lemma {:induction false} RunKeepsInv(jobs: seq<Job>, states: seq<State>, picks: seq<nat>, i: nat)
    requires IsRun(jobs, states, picks) && i < |states|
    ensures Inv(jobs, states[i])
  {
    if i == 0 {
      InitialInv(jobs);
    } else {
      RunKeepsInv(jobs, states, picks, i - 1);
      StepKeepsInv(jobs, states[i - 1], picks[i - 1]);
    }
  }

  // ---------- Mutual exclusion ----------

  /** In every state of every run: two executing tasks never share a resource, at most one
      unit is past the gate, and an action that executes has all it needs locked. */
  lemma MutualExclusion(jobs: seq<Job>, states: seq<State>, picks: seq<nat>, i: nat, t: nat, u: nat)
    requires IsRun(jobs, states, picks) && i < |states| && t < |jobs| && u < |jobs| && t != u
    ensures states[i].pcs[t].Running? && states[i].pcs[u].Running? ==> forall r | r in jobs[t].locks :: r !in jobs[u].locks
    ensures !(InGate(jobs[t], states[i].pcs[t]) && InGate(jobs[u], states[i].pcs[u]))
  {
    var s := states[i];
    RunKeepsInv(jobs, states, picks, i);
    if s.pcs[t].Running? && s.pcs[u].Running? {
      forall r | r in jobs[t].locks ensures r !in jobs[u].locks {
        HolderOf(jobs, s, t, r);
        assert Holds(jobs[u], s.pcs[u], r) ==> MapsTo(s.holder, r, u);
      }
    }
  }

  predicate MapsTo(m: map<ActionResource, nat>, r: ActionResource, t: nat) {
    r in m && m[r] == t
  }

  lemma HolderOf(jobs: seq<Job>, s: State, t: nat, r: ActionResource)
    requires HolderInv(jobs, s) && t < |jobs| && Holds(jobs[t], s.pcs[t], r)
    ensures MapsTo(s.holder, r, t)
  {
  }

  lemma ExecutesUnderLock(jobs: seq<Job>, states: seq<State>, picks: seq<nat>, i: nat, t: nat)
    requires IsRun(jobs, states, picks) && i < |states| && t < |jobs| && Proper(jobs[t])
    requires states[i].pcs[t].Running? && states[i].pcs[t].done < |jobs[t].script|
    ensures forall r | r in jobs[t].script[states[i].pcs[t].done].required :: r in states[i].holder && states[i].holder[r] == t
  {
    RunKeepsInv(jobs, states, picks, i);
    forall r | r in jobs[t].script[states[i].pcs[t].done].required ensures r in states[i].holder && states[i].holder[r] == t {
      assert Holds(jobs[t], states[i].pcs[t], r);
    }
  }

  // ---------- No overtaking at the gate ----------

  function SequenceOf(ws: seq<Waiter>, token: nat): int {
    if ws == [] then -1 else if ws[0].token == token then ws[0].sequence else SequenceOf(ws[1..], token)
  }

  lemma {:induction false} SequenceOfWaiter(ws: seq<Waiter>, w: Waiter)
    requires w in ws && DistinctTokens(ws)
    ensures SequenceOf(ws, w.token) == w.sequence
  {
    var i :| 0 <= i < |ws| && ws[i] == w;
    if i > 0 {
      assert ws[1..][i - 1] == w;
      SequenceOfWaiter(ws[1..], w);
    }
  }

  /** While `u` waits, the gate is only ever granted to a unit of higher priority, or to one
      of equal priority that entered earlier. */
  lemma NoOvertaking(jobs: seq<Job>, s: State, t: nat, u: nat)
    requires Inv(jobs, s) && Enabled(jobs, s, t) && u < |jobs|
    requires s.pcs[u] == Waiting && Step(jobs, s, t).pcs[u] == Waiting
    requires !InGate(jobs[t], s.pcs[t]) && InGate(jobs[t], Step(jobs, s, t).pcs[t])
    ensures jobs[t].priority > jobs[u].priority
            || (jobs[t].priority == jobs[u].priority && s.pcs[t] == Waiting
                && SequenceOf(s.gate.waiting, t) < SequenceOf(s.gate.waiting, u))
  {
    assert Waits(s.gate, u);
    var w :| w in s.gate.waiting && w.token == u;
    if s.pcs[t] == Waiting {
      assert HeadIs(s.gate, t) && !s.gate.active;
      GrantedInOrder(s.gate, t, w);
      assert s.gate.waiting[0] in s.gate.waiting;
    } else {
      assert jobs[t].unit && !Waits(s.gate, t);
      EnterGrants(s.gate, jobs[t].priority, t);
    }
  }

  lemma GrantedInOrder(g: Gate, t: nat, w: Waiter)
    requires OutputGate.Inv(g) && !g.active && HeadIs(g, t) && w in g.waiting && w.token != t
    ensures var h := g.waiting[0];
      h.sortPriority < w.sortPriority
      || (h.sortPriority == w.sortPriority && SequenceOf(g.waiting, t) < SequenceOf(g.waiting, w.token))
  {
    GrantOrder(g, t, w);
    SequenceOfWaiter(g.waiting, w);
    assert g.waiting[0] in g.waiting;
    SequenceOfWaiter(g.waiting, g.waiting[0]);
  }

  // ---------- Deadlock freedom ----------

  /** From a task blocked on a lock, following holders up the order reaches a task that can step. */
  lemma {:induction false} UnblockedAbove(jobs: seq<Job>, s: State, t: nat) returns (u: nat)
    requires Inv(jobs, s) && t < |jobs| && s.pcs[t].Locking? && s.pcs[t].queued
    requires forall j | 0 <= j < |jobs| :: Ascending(jobs[j].locks)
    ensures Enabled(jobs, s, u)
    decreases 9 - Rank(jobs[t].locks[s.pcs[t].next])
  {
    var r := jobs[t].locks[s.pcs[t].next];
    if r in s.holder {
      u := s.holder[r];
      if s.pcs[u].Locking? && s.pcs[u].queued {
        var k := s.pcs[u].next;
        var i :| 0 <= i < k && jobs[u].locks[i] == r;
        assert Rank(r) < Rank(jobs[u].locks[k]);
        u := UnblockedAbove(jobs, s, u);
      }
    } else {
      assert QueuedOn(jobs, s, t, r) && QueueRight(jobs, s, r);
      u := Queue(s, r)[0];
      assert QueuedOn(jobs, s, u, r);
    }
  }

  /** As long as a task is unfinished, some task can step. */
  lemma DeadlockFree(jobs: seq<Job>, s: State) returns (u: nat)
    requires Inv(jobs, s)
    requires forall j | 0 <= j < |jobs| :: Ascending(jobs[j].locks)
    requires exists t :: 0 <= t < |jobs| && s.pcs[t] != Done
    ensures Enabled(jobs, s, u)
  {
    var t :| 0 <= t < |jobs| && s.pcs[t] != Done;
    if Enabled(jobs, s, t) { return t; }
    if s.pcs[t].Locking? {
      u := UnblockedAbove(jobs, s, t);
    } else {
      assert Waits(s.gate, t);
      if s.gate.active {
        var o :| 0 <= o < |jobs| && InGate(jobs[o], s.pcs[o]);
        if Enabled(jobs, s, o) { return o; }
        u := UnblockedAbove(jobs, s, o);
      } else {
        // No lost wake-up: the head of the heap is awake.
        u := s.gate.waiting[0].token;
        assert s.gate.waiting[0] in s.gate.waiting;
        assert Waits(s.gate, u);
      }
    }
  }

  // ---------- Termination ----------

  /** Steps a task still has to make, not counting fruitless wake-ups. */
  function Remaining(job: Job, pc: Pc): nat {
    var l, a := |job.locks|, |job.script|;
    match pc
    case Idle => 2 * l + a + 6
    case Waiting => 2 * l + a + 5
    case Locking(k, queued) => if k <= l then 2 * (l - k) + a + 4 - (if queued then 1 else 0) else 0
    case Running(d) => if d <= a then a - d + 3 else 0
    case Releasing => 1
    case Done => 0
  }

  function TotalRemaining(jobs: seq<Job>, pcs: seq<Pc>): nat
    requires |pcs| == |jobs|
  {
    if jobs == [] then 0 else Remaining(jobs[0], pcs[0]) + TotalRemaining(jobs[1..], pcs[1..])
  }

  /** Waiters that are awake. */
  function Awake(n: nat, g: Gate, pcs: seq<Pc>): nat
    requires n <= |pcs|
  {
    if n == 0 then 0 else (if pcs[n - 1] == Waiting && (n - 1) !in g.parked then 1 else 0) + Awake(n - 1, g, pcs)
  }

  lemma {:induction false} AwakeBound(n: nat, g: Gate, pcs: seq<Pc>)
    requires n <= |pcs|
    ensures Awake(n, g, pcs) <= n
  {
    if n > 0 { AwakeBound(n - 1, g, pcs); }
  }

  lemma {:induction false} AwakeLess(n: nat, g: Gate, g': Gate, pcs: seq<Pc>, t: nat)
    requires n <= |pcs| && pcs[..] == pcs && g'.parked == g.parked + {t} && t !in g.parked
    requires t < |pcs| && pcs[t] == Waiting
    ensures Awake(n, g', pcs) == Awake(n, g, pcs) - if t < n then 1 else 0
  {
    if n > 0 { AwakeLess(n - 1, g, g', pcs, t); }
  }

  lemma {:induction false} TotalUpdate(jobs: seq<Job>, pcs: seq<Pc>, t: nat, pc: Pc)
    requires |pcs| == |jobs| && t < |jobs|
    ensures TotalRemaining(jobs, pcs[t := pc]) == TotalRemaining(jobs, pcs) - Remaining(jobs[t], pcs[t]) + Remaining(jobs[t], pc)
  {
    if t == 0 {
      assert pcs[t := pc][1..] == pcs[1..];
    } else {
      TotalUpdate(jobs[1..], pcs[1..], t - 1, pc);
      assert pcs[t := pc][1..] == pcs[1..][t - 1 := pc];
    }
  }

  /** The measure: work left, weighed over awake waiters. */
  function Measure(jobs: seq<Job>, s: State): nat
    requires |s.pcs| == |jobs|
  {
    TotalRemaining(jobs, s.pcs) * (|jobs| + 1) + Awake(|jobs|, s.gate, s.pcs)
  }

  lemma Outweighs(a: nat, b: nat, n: nat, x: nat, y: nat)
    requires a < b && x <= n
    ensures a * (n + 1) + x < b * (n + 1) + y
  {
    var m, d := n + 1, b - a - 1;
    assert b * m == a * m + m + d * m by { assert b == a + 1 + d; }
    assert d * m >= 0;
  }

  /** A step that is not a fruitless wake-up leaves its task less to do. */
  lemma StepWorks(jobs: seq<Job>, s: State, t: nat)
    requires PcInv(jobs, s) && Enabled(jobs, s, t)
    ensures var s' := Step(jobs, s, t);
      && |s'.pcs| == |jobs| && s'.pcs == s.pcs[t := s'.pcs[t]]
      && (Remaining(jobs[t], s'.pcs[t]) < Remaining(jobs[t], s.pcs[t]) || (s.pcs[t] == Waiting && s'.pcs[t] == Waiting))
  {
    if s.pcs[t].Locking? { LockWorks(jobs, s, t); }
  }

  lemma LockWorks(jobs: seq<Job>, s: State, t: nat)
    requires PcInv(jobs, s) && Enabled(jobs, s, t) && s.pcs[t].Locking?
    ensures var s' := Lock(jobs, s, t);
      && |s'.pcs| == |jobs| && s'.pcs == s.pcs[t := s'.pcs[t]]
      && Remaining(jobs[t], s'.pcs[t]) < Remaining(jobs[t], s.pcs[t])
  {
  }

  /** Every step brings the measure down. */
  lemma StepDecreases(jobs: seq<Job>, s: State, t: nat)
    requires Inv(jobs, s) && Enabled(jobs, s, t)
    ensures |Step(jobs, s, t).pcs| == |jobs|
    ensures Measure(jobs, Step(jobs, s, t)) < Measure(jobs, s)
  {
    StepWorks(jobs, s, t);
    if s.pcs[t] == Waiting && Step(jobs, s, t).pcs[t] == Waiting {
      FruitlessWake(jobs, s, t);
    } else {
      WorkDecreases(jobs, s, Step(jobs, s, t), t);
    }
  }

  lemma FruitlessWake(jobs: seq<Job>, s: State, t: nat)
    requires |s.pcs| == |jobs| && Enabled(jobs, s, t) && s.pcs[t] == Waiting && Step(jobs, s, t).pcs[t] == Waiting
    ensures |Step(jobs, s, t).pcs| == |jobs|
    ensures Measure(jobs, Step(jobs, s, t)) < Measure(jobs, s)
  {
    var s' := Step(jobs, s, t);
    assert s'.pcs == s.pcs;
    AwakeLess(|jobs|, s.gate, s'.gate, s.pcs, t);
  }

  lemma WorkDecreases(jobs: seq<Job>, s: State, s': State, t: nat)
    requires |s.pcs| == |jobs| && |s'.pcs| == |jobs| && t < |jobs| && s'.pcs == s.pcs[t := s'.pcs[t]]
    requires Remaining(jobs[t], s'.pcs[t]) < Remaining(jobs[t], s.pcs[t])
    ensures Measure(jobs, s') < Measure(jobs, s)
  {
    TotalUpdate(jobs, s.pcs, t, s'.pcs[t]);
    AwakeBound(|jobs|, s'.gate, s'.pcs);
    Outweighs(TotalRemaining(jobs, s'.pcs), TotalRemaining(jobs, s.pcs), |jobs|,
      Awake(|jobs|, s'.gate, s'.pcs), Awake(|jobs|, s.gate, s.pcs));
  }

  /** No run is longer than the initial measure, whatever the interleaving. */
  lemma {:induction false} RunsAreBounded(jobs: seq<Job>, states: seq<State>, picks: seq<nat>, i: nat)
    requires IsRun(jobs, states, picks) && i < |states|
    ensures i + Measure(jobs, states[i]) <= Measure(jobs, Initial(jobs))
  {
    if i > 0 {
      RunsAreBounded(jobs, states, picks, i - 1);
      RunDecreases(jobs, states, picks, i - 1);
    }
  }

  lemma RunDecreases(jobs: seq<Job>, states: seq<State>, picks: seq<nat>, i: nat)
    requires IsRun(jobs, states, picks) && i < |picks|
    ensures Measure(jobs, states[i + 1]) < Measure(jobs, states[i])
  {
    RunKeepsInv(jobs, states, picks, i);
    StepDecreases(jobs, states[i], picks[i]);
  }

  /** Every run can be extended until every task has finished, and ends within the bound:
      a run in whose last state nothing can step has finished all tasks. */
  lemma EveryTaskFinishes(jobs: seq<Job>, states: seq<State>, picks: seq<nat>)
    requires IsRun(jobs, states, picks)
    requires forall j | 0 <= j < |jobs| :: Ascending(jobs[j].locks)
    ensures |picks| <= Measure(jobs, Initial(jobs))
    ensures (forall t :: !Enabled(jobs, states[|picks|], t)) <==> (forall t | 0 <= t < |jobs| :: states[|picks|].pcs[t] == Done)
  {
    var s := states[|picks|];
    RunsAreBounded(jobs, states, picks, |picks|);
    RunKeepsInv(jobs, states, picks, |picks|);
    if exists t :: 0 <= t < |jobs| && s.pcs[t] != Done {
      var u := DeadlockFree(jobs, s);
    }
  }

  // ---------- The theorems for tasks as submitted ----------

  function Jobs(tasks: seq<Task>): seq<Job> {
    seq(|tasks|, i requires 0 <= i < |tasks| => Prepare(tasks[i]))
  }

  /** Tasks that execute at the same time need disjoint resources and hold all of theirs. */
  lemma TasksExclude(tasks: seq<Task>, states: seq<State>, picks: seq<nat>, i: nat, t: nat, u: nat)
    requires IsRun(Jobs(tasks), states, picks) && i < |states| && t < |tasks| && u < |tasks| && t != u
    requires states[i].pcs[t].Running? && states[i].pcs[u].Running?
    ensures Resources(tasks[t]) !! Resources(tasks[u])
    ensures !(tasks[t].OutputUnit? && tasks[u].OutputUnit?)
    ensures forall r | r in Resources(tasks[t]) :: MapsTo(states[i].holder, r, t)
  {
    MutualExclusion(Jobs(tasks), states, picks, i, t, u);
    RunKeepsInv(Jobs(tasks), states, picks, i);
    PreparedIsProper(tasks[t]);
    PreparedIsProper(tasks[u]);
    forall r | r in Resources(tasks[t]) ensures MapsTo(states[i].holder, r, t) && r !in Resources(tasks[u]) {
      assert Holds(Jobs(tasks)[t], states[i].pcs[t], r);
      HolderOf(Jobs(tasks), states[i], t, r);
      assert r in Jobs(tasks)[t].locks;
    }
  }

  /** Whatever tasks are submitted and however they interleave: a run has bounded length, and
      it can be continued exactly as long as some task is unfinished. */
  lemma TasksFinish(tasks: seq<Task>, states: seq<State>, picks: seq<nat>)
    requires IsRun(Jobs(tasks), states, picks)
    ensures |picks| <= Measure(Jobs(tasks), Initial(Jobs(tasks)))
    ensures (exists t :: Enabled(Jobs(tasks), states[|picks|], t)) <==>
            (exists t :: 0 <= t < |tasks| && states[|picks|].pcs[t] != Done)
  {
    forall j | 0 <= j < |Jobs(tasks)| ensures Ascending(Jobs(tasks)[j].locks) {
      PreparedIsProper(tasks[j]);
    }
    EveryTaskFinishes(Jobs(tasks), states, picks);
  }

  /** No overtaking, in terms of the tasks submitted: while the unit `u` waits, the gate goes only to
      a unit of higher priority, or of the same that came earlier. Plain actions never wait for it. */
  lemma TasksNotOvertaken(tasks: seq<Task>, states: seq<State>, picks: seq<nat>, i: nat, u: nat)
    requires IsRun(Jobs(tasks), states, picks) && i < |picks| && u < |tasks|
    requires states[i].pcs[u] == Waiting && states[i + 1].pcs[u] == Waiting
    ensures picks[i] < |tasks| && tasks[u].OutputUnit?
    ensures var t := picks[i];
      tasks[t].OutputUnit? && !states[i].pcs[t].Locking? && states[i + 1].pcs[t].Locking? ==>
        || tasks[t].priority > tasks[u].priority
        || (tasks[t].priority == tasks[u].priority && states[i].pcs[t] == Waiting
            && SequenceOf(states[i].gate.waiting, t) < SequenceOf(states[i].gate.waiting, u))
  {
    var jobs, s, t := Jobs(tasks), states[i], picks[i];
    RunKeepsInv(jobs, states, picks, i);
    if tasks[t].OutputUnit? && !s.pcs[t].Locking? && states[i + 1].pcs[t].Locking? {
      assert !InGate(jobs[t], s.pcs[t]);
      NoOvertaking(jobs, s, t, u);
    }
  }

  // ---------- Every action is executed ----------

  /** The actions that task `t` executed, in order. */
  function By(log: seq<Executed>, t: nat): seq<ActionPlan> {
    if log == [] then []
    else By(log[..|log| - 1], t) + if log[|log| - 1].task == t then [log[|log| - 1].action] else []
  }

  lemma BySnoc(log: seq<Executed>, e: Executed, t: nat)
    ensures By(log + [e], t) == By(log, t) + if e.task == t then [e.action] else []
  {
    assert (log + [e])[..|log|] == log;
  }

  /** How far a task is with its script, by where it is. */
  predicate ExecutedSoFar(job: Job, pc: Pc, actions: seq<ActionPlan>) {
    match pc
    case Running(d) => d <= |job.script| && actions == job.script[..d]
    case Releasing => actions == job.script
    case Done => actions == job.script
    case _ => actions == []
  }

  ghost predicate LogRight(jobs: seq<Job>, s: State) {
    |s.pcs| == |jobs| && forall t | 0 <= t < |jobs| :: ExecutedSoFar(jobs[t], s.pcs[t], By(s.executed, t))
  }

  /** A step executes at most one action, the next one of the task that steps. */
  lemma StepExecutes(jobs: seq<Job>, s: State, t: nat)
    requires |s.pcs| == |jobs| && Enabled(jobs, s, t)
    ensures var s' := Step(jobs, s, t);
      if s.pcs[t].Running? && s.pcs[t].done < |jobs[t].script|
      then s'.executed == s.executed + [Executed(t, jobs[t].script[s.pcs[t].done])]
      else s'.executed == s.executed
  {
  }

  lemma PcFollows(jobs: seq<Job>, s: State, t: nat, actions: seq<ActionPlan>)
    requires |s.pcs| == |jobs| && Enabled(jobs, s, t) && ExecutedSoFar(jobs[t], s.pcs[t], actions)
    ensures ExecutedSoFar(jobs[t], Step(jobs, s, t).pcs[t],
              if s.pcs[t].Running? && s.pcs[t].done < |jobs[t].script| then actions + [jobs[t].script[s.pcs[t].done]] else actions)
  {
    if s.pcs[t].Running? {
      var d, script := s.pcs[t].done, jobs[t].script;
      if d < |script| { assert script[..d + 1] == script[..d] + [script[d]]; } else { assert script[..d] == script; }
    }
  }

  lemma StepKeepsLog(jobs: seq<Job>, s: State, t: nat)
    requires LogRight(jobs, s) && Enabled(jobs, s, t)
    ensures LogRight(jobs, Step(jobs, s, t))
  {
    var s' := Step(jobs, s, t);
    PcFollows(jobs, s, t, By(s.executed, t));
    StepExecutes(jobs, s, t);
    LogFollows(jobs, s, s', t);
  }

  lemma LogFollows(jobs: seq<Job>, s: State, s': State, t: nat)
    requires LogRight(jobs, s) && t < |jobs| && |s'.pcs| == |jobs| && s'.pcs == s.pcs[t := s'.pcs[t]]
    requires var acts := s.pcs[t].Running? && s.pcs[t].done < |jobs[t].script|;
      && s'.executed == (if acts then s.executed + [Executed(t, jobs[t].script[s.pcs[t].done])] else s.executed)
      && ExecutedSoFar(jobs[t], s'.pcs[t], if acts then By(s.executed, t) + [jobs[t].script[s.pcs[t].done]] else By(s.executed, t))
    ensures LogRight(jobs, s')
  {
    forall u | 0 <= u < |jobs| ensures ExecutedSoFar(jobs[u], s'.pcs[u], By(s'.executed, u)) {
      assert ExecutedSoFar(jobs[u], s.pcs[u], By(s.executed, u));
      if s.pcs[t].Running? && s.pcs[t].done < |jobs[t].script| {
        BySnoc(s.executed, Executed(t, jobs[t].script[s.pcs[t].done]), u);
      }
    }
  }

  lemma {:induction false} RunKeepsLog(jobs: seq<Job>, states: seq<State>, picks: seq<nat>, i: nat)
    requires IsRun(jobs, states, picks) && i < |states|
    ensures LogRight(jobs, states[i])
  {
    if i > 0 {
      RunKeepsLog(jobs, states, picks, i - 1);
      StepKeepsLog(jobs, states[i - 1], picks[i - 1]);
    }
  }

  /** The actions that are, or are not, subtitles and expressions. */
  function OfKind(plans: seq<ActionPlan>, visual: bool): seq<ActionPlan> {
    if plans == [] then []
    else
      var last := plans[|plans| - 1];
      OfKind(plans[..|plans| - 1], visual)
      + if visual == (last.actionType in {UpdateSubtitle, ChangeExpression}) then [last] else []
  }

  lemma {:induction false} VisualIsOfKind(plans: seq<ActionPlan>, visual: bool)
    ensures Visual(plans, visual) == OfKind(plans, visual)
  {
    if plans != [] {
      var front, last := plans[..|plans| - 1], plans[|plans| - 1];
      VisualIsOfKind(front, visual);
      VisualOfConcat(front, [last], visual);
      assert plans == front + [last];
      assert [last][1..] == [];
    }
  }

  /** What executing a task's actions once each, in the order promised, means. */
  ghost predicate InOrder(task: Task, actions: seq<ActionPlan>) {
    match task
    case PlainAction(plan) => actions == [plan]
    case OutputUnit(_, plans) =>
      && multiset(actions) == multiset(plans)
      && (forall visual :: OfKind(actions, visual) == OfKind(plans, visual))
      && (forall i, j | 0 <= i < j < |actions| && actions[j].actionType in {UpdateSubtitle, ChangeExpression} ::
            actions[i].actionType in {UpdateSubtitle, ChangeExpression})
  }

  lemma ScriptInOrder(task: Task)
    ensures InOrder(task, Prepare(task).script)
  {
    if task.OutputUnit? {
      SynchronizedOrderCorrect(task.plans);
      forall visual ensures OfKind(SynchronizedOrder(task.plans), visual) == OfKind(task.plans, visual) {
        VisualIsOfKind(SynchronizedOrder(task.plans), visual);
        VisualIsOfKind(task.plans, visual);
      }
    }
  }

  /** Over every run, for each task that was submitted: what it has executed is the beginning of
      its actions, each once, in the order promised, and it is not done before it executed all. */
  lemma ActionsExecuted(tasks: seq<Task>, states: seq<State>, picks: seq<nat>, i: nat, t: nat) returns (order: seq<ActionPlan>)
    requires IsRun(Jobs(tasks), states, picks) && i < |states| && t < |tasks|
    ensures InOrder(tasks[t], order) && By(states[i].executed, t) <= order
    ensures states[i].pcs[t] == Done ==> By(states[i].executed, t) == order
  {
    RunKeepsLog(Jobs(tasks), states, picks, i);
    order := Prepare(tasks[t]).script;
    ScriptInOrder(tasks[t]);
    assert ExecutedSoFar(Jobs(tasks)[t], states[i].pcs[t], By(states[i].executed, t));
  }

  /** Each action is executed by a task that holds all its resources right then. */
  lemma ExecutedUnderLock(tasks: seq<Task>, states: seq<State>, picks: seq<nat>, i: nat)
    requires IsRun(Jobs(tasks), states, picks) && i < |picks|
    ensures states[i].executed <= states[i + 1].executed && |states[i + 1].executed| <= |states[i].executed| + 1
    ensures states[i + 1].executed != states[i].executed ==>
              var e := states[i + 1].executed[|states[i].executed|];
              e.task == picks[i] && forall r | r in e.action.required :: MapsTo(states[i].holder, r, e.task)
  {
    var jobs, t := Jobs(tasks), picks[i];
    StepExecutes(jobs, states[i], t);
    if states[i + 1].executed != states[i].executed {
      PreparedIsProper(tasks[t]);
      ExecutesUnderLock(jobs, states, picks, i, t);
    }
  }

  /** A group that speaks, once its task is done, whatever other groups were submitted: a unit
      executed each of its actions once, in the order above. */
  lemma SpeakingGroupExecuted(tasks: seq<Task>, states: seq<State>, picks: seq<nat>, i: nat, g: Group, first: nat)
    requires IsRun(Jobs(tasks), states, picks) && i < |states| && Submitted(tasks, g, first)
    requires exists k :: 0 <= k < |g.plans| && g.plans[k].actionType == Speak
    ensures first < |states[i].pcs| && tasks[first] == OutputUnit(g.priority, g.plans)
    ensures states[i].pcs[first] == Done ==> InOrder(OutputUnit(g.priority, g.plans), By(states[i].executed, first))
  {
    assert Speaks(g) && tasks[first + 0] == TasksOf(g)[0];
    var order := ActionsExecuted(tasks, states, picks, i, first);
  }

  /** Any other group: each action is executed once, by a task of its own. */
  lemma SilentGroupExecuted(tasks: seq<Task>, states: seq<State>, picks: seq<nat>, i: nat, g: Group, first: nat, k: nat)
    requires IsRun(Jobs(tasks), states, picks) && i < |states| && Submitted(tasks, g, first) && k < |g.plans|
    requires forall j | 0 <= j < |g.plans| :: g.plans[j].actionType != Speak
    ensures first + k < |states[i].pcs|
    ensures states[i].pcs[first + k] == Done ==> By(states[i].executed, first + k) == [g.plans[k]]
  {
    assert tasks[first + k] == TasksOf(g)[k];
    var order := ActionsExecuted(tasks, states, picks, i, first + k);
  }

  // ---------- Cancelling a task that waits for a lock ----------

  function Without(q: seq<nat>, t: nat): (r: seq<nat>)
    ensures forall u :: u in r <==> u in q && u != t
  {
    if q == [] then [] else (if q[0] == t then [] else [q[0]]) + Without(q[1..], t)
  }

  lemma {:induction false} WithoutDistinct(q: seq<nat>, t: nat)
    requires forall i, j | 0 <= i < j < |q| :: q[i] != q[j]
    ensures forall i, j | 0 <= i < j < |Without(q, t)| :: Without(q, t)[i] != Without(q, t)[j]
  {
    if q != [] {
      WithoutDistinct(q[1..], t);
      forall k | 0 <= k < |Without(q[1..], t)| ensures Without(q[1..], t)[k] != q[0] {
        assert Without(q[1..], t)[k] in Without(q[1..], t);
      }
    }
  }

  /** `__aenter__` is left by a cancellation: the lock queue forgets the task and an output
      unit gives the gate back, but locks already taken are not released. It is defined between
      any two acquisitions, also where the program would first reach its next `await`. */
  function Cancel(jobs: seq<Job>, s: State, t: nat): State
    requires |s.pcs| == |jobs| && t < |jobs| && s.pcs[t].Locking?
  {
    var k := s.pcs[t].next;
    SetPc(s, t, Done)
      .(gate := if jobs[t].unit then Release(s.gate) else s.gate,
        queues := if s.pcs[t].queued && k < |jobs[t].locks|
                  then s.queues[jobs[t].locks[k] := Without(Queue(s, jobs[t].locks[k]), t)] else s.queues)
  }

  /** A cancellation in `__aenter__` is harmless exactly when no lock had been taken yet. */
  lemma CancelHarmlessIff(jobs: seq<Job>, s: State, t: nat)
    requires Inv(jobs, s) && t < |jobs| && s.pcs[t].Locking?
    ensures Inv(jobs, Cancel(jobs, s, t)) <==> s.pcs[t].next == 0
  {
    var s' := Cancel(jobs, s, t);
    if s.pcs[t].next == 0 {
      CancelKeepsGate(jobs, s, t);
      CancelKeepsQueues(jobs, s, t);
      forall u, r | 0 <= u < |jobs| ensures Holds(jobs[u], s'.pcs[u], r) == Holds(jobs[u], s.pcs[u], r) { }
    } else {
      var r := jobs[t].locks[0];
      assert Holds(jobs[t], s.pcs[t], r);
      assert MapsTo(s'.holder, r, t) && !Holds(jobs[t], s'.pcs[t], r);
    }
  }

  lemma CancelKeepsGate(jobs: seq<Job>, s: State, t: nat)
    requires Inv(jobs, s) && t < |jobs| && s.pcs[t].Locking?
    ensures GateInv(jobs, Cancel(jobs, s, t))
  {
    var s' := Cancel(jobs, s, t);
    SamePcsElsewhere(jobs, s, s', t);
    if jobs[t].unit {
      assert InGate(jobs[t], s.pcs[t]);
      ReleaseKeepsInv(s.gate);
      forall u: nat ensures Waits(s'.gate, u) == Waits(s.gate, u) { }
    } else if s.gate.active {
      var o :| 0 <= o < |jobs| && InGate(jobs[o], s.pcs[o]);
      assert InGate(jobs[o], s'.pcs[o]);
    }
  }

  lemma CancelKeepsQueues(jobs: seq<Job>, s: State, t: nat)
    requires Inv(jobs, s) && t < |jobs| && s.pcs[t].Locking?
    ensures QueueInv(jobs, Cancel(jobs, s, t))
  {
    var s' := Cancel(jobs, s, t);
    forall u: nat, r ensures QueuedOn(jobs, s', u, r) <==> QueuedOn(jobs, s, u, r) && u != t { }
    forall r ensures QueueRight(jobs, s', r) {
      assert QueueRight(jobs, s, r);
      ForgottenRight(jobs, s, s', t, r);
    }
  }

  lemma ForgottenRight(jobs: seq<Job>, s: State, s': State, t: nat, r: ActionResource)
    requires |s.pcs| == |s'.pcs| == |jobs| && QueueRight(jobs, s, r)
    requires Queue(s', r) == (if t in Queue(s, r) then Without(Queue(s, r), t) else Queue(s, r))
    requires forall u: nat :: QueuedOn(jobs, s', u, r) <==> QueuedOn(jobs, s, u, r) && u != t
    ensures QueueRight(jobs, s', r)
  {
    WithoutDistinct(Queue(s, r), t);
    forall i | 0 <= i < |Queue(s', r)| ensures QueuedOn(jobs, s', Queue(s', r)[i], r) {
      assert Queue(s', r)[i] in Queue(s', r);
    }
  }

  /** `u` still has to take `r`. */
  predicate Needs(job: Job, pc: Pc, r: ActionResource) {
    r in job.locks &&
    match pc
    case Idle => true
    case Waiting => true
    case Locking(k, _) => k <= |job.locks| && r !in job.locks[..k]
    case _ => false
  }

  /** Otherwise each lock the cancelled task had taken is lost: a task that still needs one
      never executes, in any continuation. */
  lemma {:induction false} LostLockBlocks(jobs: seq<Job>, states: seq<State>, picks: seq<nat>, t: nat, u: nat, r: ActionResource, i: nat)
    requires IsPath(jobs, states, picks) && i < |states| && t < |jobs| && u < |jobs|
    requires states[0].pcs[t] == Done && MapsTo(states[0].holder, r, t)
    requires Needs(jobs[u], states[0].pcs[u], r)
    ensures states[i].pcs[t] == Done && MapsTo(states[i].holder, r, t) && Needs(jobs[u], states[i].pcs[u], r)
  {
    if i > 0 {
      LostLockBlocks(jobs, states, picks, t, u, r, i - 1);
      LostLockStep(jobs, states[i - 1], picks[i - 1], t, u, r);
    }
  }

  lemma LostLockStep(jobs: seq<Job>, s: State, v: nat, t: nat, u: nat, r: ActionResource)
    requires |s.pcs| == |jobs| && Enabled(jobs, s, v) && t < |jobs| && u < |jobs|
    requires s.pcs[t] == Done && MapsTo(s.holder, r, t) && Needs(jobs[u], s.pcs[u], r)
    ensures var s' := Step(jobs, s, v);
      |s'.pcs| == |jobs| && s'.pcs[t] == Done && MapsTo(s'.holder, r, t) && Needs(jobs[u], s'.pcs[u], r)
  {
    if s.pcs[v].Locking? { LostLockAcquire(jobs, s, v, t, u, r); }
  }

  lemma LostLockAcquire(jobs: seq<Job>, s: State, v: nat, t: nat, u: nat, r: ActionResource)
    requires |s.pcs| == |jobs| && Enabled(jobs, s, v) && t < |jobs| && u < |jobs| && s.pcs[v].Locking?
    requires s.pcs[t] == Done && MapsTo(s.holder, r, t) && Needs(jobs[u], s.pcs[u], r)
    ensures var s' := Lock(jobs, s, v);
      |s'.pcs| == |jobs| && s'.pcs[t] == Done && MapsTo(s'.holder, r, t) && Needs(jobs[u], s'.pcs[u], r)
  {
    var k, order := s.pcs[v].next, jobs[v].locks;
    if v == u && k < |order| {
      assert order[..k + 1] == order[..k] + [order[k]];
    }
  }

  lemma CancelLosesLocks(jobs: seq<Job>, s: State, t: nat, r: ActionResource)
    requires Inv(jobs, s) && t < |jobs| && s.pcs[t].Locking? && r in jobs[t].locks[..s.pcs[t].next]
    ensures Cancel(jobs, s, t).pcs[t] == Done && MapsTo(Cancel(jobs, s, t).holder, r, t)
  {
    assert Holds(jobs[t], s.pcs[t], r);
    HolderOf(jobs, s, t, r);
  }

  // ---------- Cancelling a unit that waits for the gate ----------

  /** Cancelling the task does not reach the thread that runs `acquire`. */
  function Abandon(s: State, t: nat): State
    requires t < |s.pcs|
  {
    SetPc(s, t, Done)
  }

  /** The thread wakes up and tries again, for nobody. */
  function AbandonedTry(s: State, t: nat): State { s.(gate := Try(s.gate, t)) }

  predicate GetsThrough(s: State, t: nat) { !s.gate.active && HeadIs(s.gate, t) }

  /** From a cancellation on: steps of the other tasks, and tries of the thread that is left over,
      which have not got it through so far. */
  ghost predicate IsAbandonedPath(jobs: seq<Job>, states: seq<State>, picks: seq<nat>, t: nat) {
    && |states| == |picks| + 1
    && (forall i | 0 <= i < |states| :: |states[i].pcs| == |jobs|)
    && (forall i | 0 <= i < |picks| :: LeavesAbandoned(jobs, states[i], picks[i], t, states[i + 1]))
  }

  predicate LeavesAbandoned(jobs: seq<Job>, s: State, v: nat, t: nat, s': State)
    requires |s.pcs| == |jobs|
  {
    if v == t then t !in s.gate.parked && !GetsThrough(s, t) && s' == AbandonedTry(s, t)
    else Enabled(jobs, s, v) && s' == Step(jobs, s, v)
  }

  /** The others cannot tell whether the task is cancelled or still waits. */
  lemma OthersStepAlike(jobs: seq<Job>, s: State, v: nat, t: nat)
    requires |s.pcs| == |jobs| && t < |jobs| && v != t && Enabled(jobs, s, v)
    ensures Enabled(jobs, SetPc(s, t, Waiting), v)
    ensures Step(jobs, SetPc(s, t, Waiting), v) == SetPc(Step(jobs, s, v), t, Waiting)
  {
    var waiting := SetPc(s, t, Waiting);
    assert waiting.pcs[v] == s.pcs[v];
    assert Step(jobs, waiting, v).pcs == SetPc(Step(jobs, s, v), t, Waiting).pcs;
  }

  lemma {:induction false} AbandonedIsWaiting(jobs: seq<Job>, states: seq<State>, picks: seq<nat>, t: nat, i: nat)
    requires IsAbandonedPath(jobs, states, picks, t) && i < |states| && t < |jobs|
    requires Inv(jobs, SetPc(states[0], t, Waiting))
    ensures Inv(jobs, SetPc(states[i], t, Waiting))
  {
    if i > 0 {
      AbandonedIsWaiting(jobs, states, picks, t, i - 1);
      var s, v := states[i - 1], picks[i - 1];
      assert LeavesAbandoned(jobs, s, v, t, states[i]);
      if v == t {
        assert Step(jobs, SetPc(s, t, Waiting), t) == SetPc(states[i], t, Waiting);
        StepKeepsInv(jobs, SetPc(s, t, Waiting), t);
      } else {
        OthersStepAlike(jobs, s, v, t);
        StepKeepsInv(jobs, SetPc(s, t, Waiting), v);
      }
    }
  }

  /** The gate is taken, and no unit will ever release it. */
  predicate GateLost(jobs: seq<Job>, s: State) {
    |s.pcs| == |jobs| && s.gate.active
    && forall t | 0 <= t < |jobs| :: !InGate(jobs[t], s.pcs[t]) && (s.pcs[t] == Waiting || s.pcs[t] == Releasing ==> jobs[t].unit)
  }

  /** A unit is cancelled while its thread waits for the gate. Whatever the others do meanwhile,
      the thread's next try loses the gate exactly when it gets through. */
  lemma CancelLosesGate(jobs: seq<Job>, s: State, t: nat, states: seq<State>, picks: seq<nat>, i: nat)
    requires Inv(jobs, s) && t < |jobs| && s.pcs[t] == Waiting
    requires IsAbandonedPath(jobs, states, picks, t) && states[0] == Abandon(s, t) && i < |states|
    ensures GateLost(jobs, AbandonedTry(states[i], t)) <==> GetsThrough(states[i], t)
  {
    assert SetPc(states[0], t, Waiting) == s;
    AbandonedIsWaiting(jobs, states, picks, t, i);
    AbandonedStaysDone(jobs, states, picks, t, i);
    TryLosesGate(jobs, SetPc(states[i], t, Waiting), t);
    assert Abandon(SetPc(states[i], t, Waiting), t) == states[i];
  }

  lemma {:induction false} AbandonedStaysDone(jobs: seq<Job>, states: seq<State>, picks: seq<nat>, t: nat, i: nat)
    requires IsAbandonedPath(jobs, states, picks, t) && i < |states| && t < |jobs| && states[0].pcs[t] == Done
    ensures states[i].pcs[t] == Done
  {
    if i > 0 {
      AbandonedStaysDone(jobs, states, picks, t, i - 1);
      assert LeavesAbandoned(jobs, states[i - 1], picks[i - 1], t, states[i]);
    }
  }

  lemma TryLosesGate(jobs: seq<Job>, s: State, t: nat)
    requires Inv(jobs, s) && t < |jobs| && s.pcs[t] == Waiting
    ensures GateLost(jobs, AbandonedTry(Abandon(s, t), t)) <==> GetsThrough(s, t)
  {
    var s' := AbandonedTry(Abandon(s, t), t);
    SamePcsElsewhere(jobs, s, s', t);
    if s.gate.active {
      var o :| 0 <= o < |jobs| && InGate(jobs[o], s.pcs[o]);
      assert InGate(jobs[o], s'.pcs[o]);
    } else {
      forall u | 0 <= u < |jobs| ensures !InGate(jobs[u], s'.pcs[u]) { assert !InGate(jobs[u], s.pcs[u]); }
    }
  }

  predicate Outside(pc: Pc) { pc == Idle || pc == Waiting }

  /** From then on no output unit that is not through yet ever executes, in any continuation. */
  lemma {:induction false} LostGateBlocks(jobs: seq<Job>, states: seq<State>, picks: seq<nat>, u: nat, i: nat)
    requires IsPath(jobs, states, picks) && i < |states| && GateLost(jobs, states[0])
    requires u < |jobs| && jobs[u].unit && Outside(states[0].pcs[u])
    ensures GateLost(jobs, states[i]) && Outside(states[i].pcs[u])
  {
    if i > 0 {
      LostGateBlocks(jobs, states, picks, u, i - 1);
      LostGateStep(jobs, states[i - 1], picks[i - 1], u);
    }
  }

  lemma LostGateStep(jobs: seq<Job>, s: State, v: nat, u: nat)
    requires GateLost(jobs, s) && Enabled(jobs, s, v)
    requires u < |jobs| && jobs[u].unit && Outside(s.pcs[u])
    ensures GateLost(jobs, Step(jobs, s, v)) && Outside(Step(jobs, s, v).pcs[u])
  {
    var s' := Step(jobs, s, v);
    SamePcsElsewhere(jobs, s, s', v);
    assert !InGate(jobs[v], s.pcs[v]);
  }
}
