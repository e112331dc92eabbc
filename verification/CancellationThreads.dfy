/** The cancellation calls of the planner and executor threads, over the shared queue and manager objects. */
module CancellationThreads {
  import opened Activities
  import opened PlannedQueue
  import StableSort
  import opened CancellationProtocol
  import opened CancellationTheorems
  import Manager = ActivityManagement
  import ActivityTheorems

  class PlannerThread {
    const queue: PlannedActivityQueue
    var generation: nat

    constructor (queue: PlannedActivityQueue)
      ensures this.queue == queue && generation == 0
    {
      this.queue, generation := queue, 0;
    }

    /** The check and the put under one lock: the same outcome as the protocol's move. */
    method CheckAndPut(item: Planned, read: nat) returns (rejected: bool)
      modifies queue
      ensures forall s: State | s.planner == Holding(read, item) && s.generation == generation && s.queue == old(queue.items) ::
                queue.items == DoPlanner(s, CancellationProtocol.CheckAndPut).queue
                && (rejected <==> DoPlanner(s, CancellationProtocol.CheckAndPut).planner.Rejecting?)
      ensures rejected <==> read != generation && item.activity.kind == AutonomousTalk
      ensures rejected ==> queue.items == old(queue.items)
      ensures !rejected ==> item in queue.items && multiset(queue.items) == multiset(old(queue.items)) + multiset{item}
    {
      StableSort.SortCorrect(queue.items + [item], ORDER);
      rejected := read != generation && IsTalk(item);
      if !rejected { queue.PutItem(item); }
    }

    method CancelInflightAutonomous()
      modifies this`generation
      ensures generation == old(generation) + 1
    {
      generation := generation + 1;
    }
  }

  /** The manager after cancelling each of the items. */
  function CancelEach(m: Manager.Manager, items: seq<Planned>): Manager.Manager {
    if items == [] then m else Manager.Cancel(CancelEach(m, items[..|items| - 1]), Id(items[|items| - 1]))
  }

  lemma {:induction false} CancelEachEnds(m: Manager.Manager, items: seq<Planned>)
    requires Manager.Inv(m)
    ensures Manager.Inv(CancelEach(m, items)) && ActivityTheorems.Advances(m, CancelEach(m, items))
    ensures forall i | 0 <= i < |items| && Id(items[i]) in m.acts :: Ended(CancelEach(m, items), Id(items[i]))
  {
    if items != [] {
      var front, last := items[..|items| - 1], items[|items| - 1];
      var before := CancelEach(m, front);
      CancelEachEnds(m, front);
      Manager.ApplyKeepsInv(before, Manager.OpCancel(Id(last)));
      ActivityTheorems.ApplyAdvances(before, Manager.OpCancel(Id(last)));
      ActivityTheorems.AdvancesTrans(m, before, CancelEach(m, items));
      EndedAdvances(before, CancelEach(m, items));
      assert forall i | 0 <= i < |front| :: front[i] == items[i];
    }
  }

  /** `cancel_pending_autonomous`: afterwards no autonomous talk is queued, everything else is
      still there in order, and every discarded item the manager knows is finished. */
  method CancelPendingAutonomous(queue: PlannedActivityQueue, manager: Manager.ActivityManager) returns (discarded: seq<Planned>)
    requires manager.Valid()
    modifies queue, manager
    ensures manager.Valid()
    ensures queue.items == Filter(old(queue.items), Not(TALK)) && discarded == Filter(old(queue.items), TALK)
    ensures manager.Model() == CancelEach(old(manager.Model()), discarded)
    ensures forall i | 0 <= i < |discarded| && Id(discarded[i]) in old(manager.activities) :: Ended(manager.Model(), Id(discarded[i]))
  {
    discarded := queue.DiscardItems(TALK);
    CancelEachEnds(manager.Model(), discarded);
    for i := 0 to |discarded|
      invariant manager.Valid() && manager.Model() == CancelEach(old(manager.Model()), discarded[..i])
      invariant queue.items == Filter(old(queue.items), Not(TALK))
    {
      assert discarded[..i + 1][..i] == discarded[..i];
      var canceled := manager.CancelActivity(Id(discarded[i]));
    }
    assert discarded[..|discarded|] == discarded;
  }
}
