/**
 The priority gate: a monitor over a heap of waiters and a condition variable.

 `acquire` is split where its thread can lose the monitor: entering (up to the first
 `wait`) and re-checking after a wake-up. Waiters that sit in `wait` are in `parked`.
 The heap is kept as a sorted sequence; the program only reads and pops position 0.
*/
module OutputGate {

  datatype Waiter = Waiter(sortPriority: int, sequence: nat, token: nat)

  datatype Gate = Gate(waiting: seq<Waiter>, parked: set<nat>, nextSequence: nat, active: bool)

  const EMPTY_GATE := Gate([], {}, 0, false)

  /** Dataclass order on (sort_priority, sequence). */
  predicate Before(a: Waiter, b: Waiter) {
    a.sortPriority < b.sortPriority || (a.sortPriority == b.sortPriority && a.sequence < b.sequence)
  }

  predicate Sorted(ws: seq<Waiter>) {
    forall i, j | 0 <= i < j < |ws| :: Before(ws[i], ws[j])
  }

  /** `heapq.heappush`. */
  function Push(ws: seq<Waiter>, w: Waiter): (r: seq<Waiter>)
    ensures multiset(r) == multiset(ws) + multiset{w}
    ensures |r| == |ws| + 1
  {
    if ws == [] then [w]
    else if Before(w, ws[0]) then [w] + ws
    else
      assert ws == [ws[0]] + ws[1..];
      [ws[0]] + Push(ws[1..], w)
  }

  lemma {:induction false} PushSorted(ws: seq<Waiter>, w: Waiter)
    requires Sorted(ws) && forall i | 0 <= i < |ws| :: ws[i].sequence != w.sequence
    ensures Sorted(Push(ws, w))
    ensures forall x :: x in Push(ws, w) <==> x == w || x in ws
  {
    PushMembers(ws, w);
    if ws != [] && !Before(w, ws[0]) {
      PushSorted(ws[1..], w);
      PushMembers(ws[1..], w);
      HeadBefore(ws[0], ws[1..], w, Push(ws[1..], w));
    }
  }

  lemma HeadBefore(head: Waiter, ws: seq<Waiter>, w: Waiter, rest: seq<Waiter>)
    requires Before(head, w) && (forall i | 0 <= i < |ws| :: Before(head, ws[i])) && forall x :: x in rest <==> x == w || x in ws
    ensures forall i | 0 <= i < |rest| :: Before(head, rest[i])
  {
    forall i | 0 <= i < |rest| ensures Before(head, rest[i]) { assert rest[i] in rest; }
  }

  lemma PushMembers(ws: seq<Waiter>, w: Waiter)
    ensures forall x :: x in Push(ws, w) <==> x == w || x in ws
  {
    forall x ensures x in Push(ws, w) <==> x == w || x in ws {
      assert x in multiset(Push(ws, w)) <==> x in multiset(ws) + multiset{w};
    }
  }

  // ---------- Atomic steps ----------

  predicate HeadIs(g: Gate, token: nat) {
    g.waiting != [] && g.waiting[0].token == token
  }

  /** One test of the loop condition in `acquire`: take the gate or go (back) to waiting. */
  function Try(g: Gate, token: nat): Gate {
    if !g.active && HeadIs(g, token) then Gate(g.waiting[1..], g.parked - {token}, g.nextSequence, true)
    else g.(parked := g.parked + {token})
  }

  function Enter(g: Gate, priority: int, token: nat): Gate {
    Try(Gate(Push(g.waiting, Waiter(-priority, g.nextSequence, token)), g.parked, g.nextSequence + 1, g.active), token)
  }

  /** `release`, with `notify_all`. */
  function Release(g: Gate): Gate {
    g.(parked := {}, active := false)
  }

  predicate Waits(g: Gate, token: nat) {
    exists w :: w in g.waiting && w.token == token
  }

  // ---------- Invariant ----------

  predicate DistinctTokens(ws: seq<Waiter>) {
    forall i, j | 0 <= i < j < |ws| :: ws[i].token != ws[j].token
  }

  /** The monitor's invariant. The last line is the absence of lost wake-ups: when the gate
      is free and somebody waits, the head of the heap is not asleep. */
  ghost predicate Inv(g: Gate) {
    && Sorted(g.waiting)
    && DistinctTokens(g.waiting)
    && (forall i | 0 <= i < |g.waiting| :: g.waiting[i].sequence < g.nextSequence)
    && (forall t | t in g.parked :: Waits(g, t))
    && (!g.active && g.waiting != [] ==> g.waiting[0].token !in g.parked)
  }

  /** Trying keeps the invariant, up to whether the head was awake before. */
  lemma TryKeepsInv(g: Gate, token: nat)
    requires Sorted(g.waiting) && DistinctTokens(g.waiting)
    requires forall i | 0 <= i < |g.waiting| :: g.waiting[i].sequence < g.nextSequence
    requires forall t | t in g.parked :: Waits(g, t)
    requires !g.active && g.waiting != [] ==> g.waiting[0].token !in g.parked
    requires Waits(g, token)
    ensures Inv(Try(g, token))
    ensures forall t :: Waits(Try(g, token), t) <==>
              Waits(g, t) && !(t == token && !g.active && HeadIs(g, token))
  {
    var g' := Try(g, token);
    if !g.active && HeadIs(g, token) {
      assert g.waiting == [g.waiting[0]] + g.waiting[1..];
      forall t ensures Waits(g', t) <==> Waits(g, t) && t != token {
        if Waits(g, t) && t != token {
          var w :| w in g.waiting && w.token == t;
          assert w in g.waiting[1..];
        }
        if Waits(g', t) {
          var w :| w in g'.waiting && w.token == t;
          var i :| 0 <= i < |g'.waiting| && g'.waiting[i] == w;
          assert g.waiting[i + 1] == w;
        }
      }
    }
  }

  lemma EnterKeepsInv(g: Gate, priority: int, token: nat)
    requires Inv(g) && !Waits(g, token)
    ensures Inv(Enter(g, priority, token))
    ensures forall t | t != token :: Waits(Enter(g, priority, token), t) <==> Waits(g, t)
    ensures Waits(Enter(g, priority, token), token) <==>
            g.active || exists w :: w in g.waiting && !Before(Waiter(-priority, g.nextSequence, token), w)
  {
    var w := Waiter(-priority, g.nextSequence, token);
    var h := Gate(Push(g.waiting, w), g.parked, g.nextSequence + 1, g.active);
    PushSorted(g.waiting, w);
    assert w in h.waiting;
    assert forall t :: Waits(h, t) <==> Waits(g, t) || t == token by {
      forall t | Waits(g, t) ensures Waits(h, t) {
        var x :| x in g.waiting && x.token == t;
        assert x in h.waiting;
      }
    }
    forall i, j | 0 <= i < j < |h.waiting| ensures h.waiting[i].token != h.waiting[j].token {
      var x, y := h.waiting[i], h.waiting[j];
      assert x in h.waiting && y in h.waiting && Before(x, y);
      assert x in g.waiting && y in g.waiting && x != y ==> x.token != y.token;
      assert forall z | z in g.waiting :: Waits(g, z.token);
    }
    forall i | 0 <= i < |h.waiting| ensures h.waiting[i].sequence < h.nextSequence {
      assert h.waiting[i] in h.waiting;
    }
    if !h.active {
      assert h.waiting[0] in h.waiting;
      if h.waiting[0] != w {
        var i :| 0 <= i < |g.waiting| && g.waiting[i] == h.waiting[0];
        assert g.waiting[0] in h.waiting;
        HeadLeast(h.waiting, g.waiting[0]);
      }
      HeadOrNot(h.waiting, w);
    }
    TryKeepsInv(h, token);
  }

  lemma HeadLeast(ws: seq<Waiter>, w: Waiter)
    requires Sorted(ws) && w in ws
    ensures ws[0] == w || Before(ws[0], w)
  {
    var i :| 0 <= i < |ws| && ws[i] == w;
  }

  lemma HeadOrNot(ws: seq<Waiter>, w: Waiter)
    requires Sorted(ws) && w in ws
    ensures ws[0] == w <==> forall x | x in ws && x != w :: Before(w, x)
  {
    if ws[0] == w {
      forall x | x in ws && x != w ensures Before(w, x) { HeadLeast(ws, x); }
    } else {
      HeadLeast(ws, w);
      assert ws[0] in ws && !Before(w, ws[0]);
    }
  }

  lemma ReleaseKeepsInv(g: Gate)
    requires Inv(g)
    ensures Inv(Release(g))
  {
  }

  /** Every grant made while `w` waits goes to a waiter before `w` in the order. */
  lemma GrantOrder(g: Gate, token: nat, w: Waiter)
    requires Inv(g) && !g.active && HeadIs(g, token) && w in g.waiting && w.token != token
    ensures Before(g.waiting[0], w)
  {
    HeadLeast(g.waiting, w);
  }

  /** Entering takes the gate exactly when it is free and everybody waiting comes later. */
  lemma EnterGrants(g: Gate, priority: int, token: nat)
    requires Inv(g) && !Waits(g, token)
    ensures var w, e := Waiter(-priority, g.nextSequence, token), Enter(g, priority, token);
            e.active && !g.active <==> !Waits(e, token)
    ensures var w, e := Waiter(-priority, g.nextSequence, token), Enter(g, priority, token);
            e.active && !g.active ==> forall x | x in g.waiting :: Before(w, x)
  {
    EnterKeepsInv(g, priority, token);
    var w := Waiter(-priority, g.nextSequence, token);
    if !g.active {
      if Waits(Enter(g, priority, token), token) {
        var x :| x in g.waiting && !Before(w, x);
      }
    }
  }

  // ---------- The monitor object ----------

  class PriorityOutputGate {
    var waiting: seq<Waiter>
    var parked: set<nat>
    var nextSequence: nat
    var active: bool

    ghost function Model(): Gate
      reads this
    {
      Gate(waiting, parked, nextSequence, active)
    }

    constructor ()
      ensures Model() == EMPTY_GATE && Inv(Model())
    {
      waiting, parked, nextSequence, active := [], {}, 0, false;
    }

    /** `acquire` up to its first `wait` (or its return). */
    method AcquireEnter(priority: int, token: nat) returns (granted: bool, sequence: nat)
      requires Inv(Model()) && !Waits(Model(), token)
      modifies this
      ensures Model() == Enter(old(Model()), priority, token) && Inv(Model())
      ensures sequence == old(nextSequence)
      ensures granted <==> active && !old(active)
      ensures granted ==> forall w | w in old(waiting) :: Before(Waiter(-priority, sequence, token), w)
      ensures granted <==> !Waits(Model(), token)
    {
      EnterKeepsInv(Model(), priority, token);
      EnterGrants(Model(), priority, token);
      sequence := nextSequence;
      nextSequence := nextSequence + 1;
      waiting := Push(waiting, Waiter(-priority, sequence, token));
      if active || waiting[0].token != token {
        parked := parked + {token};
        granted := false;
      } else {
        waiting := waiting[1..];
        parked := parked - {token};
        active := true;
        granted := true;
      }
    }

    /** `acquire` from one wake-up to the next `wait` (or its return). */
    method AcquireRecheck(token: nat) returns (granted: bool)
      requires Inv(Model()) && Waits(Model(), token)
      modifies this
      ensures Model() == Try(old(Model()), token) && Inv(Model())
      ensures granted <==> active && !old(active)
      ensures granted ==> old(waiting) != [] && old(waiting)[0].token == token
                          && forall w | w in waiting :: Before(old(waiting)[0], w)
    {
      TryKeepsInv(Model(), token);
      if active || waiting[0].token != token {
        parked := parked + {token};
        granted := false;
      } else {
        waiting := waiting[1..];
        parked := parked - {token};
        active := true;
        granted := true;
      }
    }

    method ReleaseGate()
      requires Inv(Model())
      modifies this
      ensures Model() == Release(old(Model())) && Inv(Model())
      ensures waiting != [] ==> waiting[0].token !in parked
    {
      active := false;
      parked := {};
    }
  }
}
