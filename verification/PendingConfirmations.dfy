/**
 The one confirmation the agent may be waiting for, and the history of the others. Times are
 integers (microseconds); the text of the question is left out.
*/
module PendingConfirmations {
  import opened Options
  import opened BehaviorPlanning

  datatype Status = Pending | ResolvedPositive | ResolvedNegative | Expired | Canceled | Superseded | Failed

  datatype Confirmation = Confirmation(
    id: nat, sourceEvent: nat, createdAt: int, expiresAt: int, status: Status, attempts: nat, maxAttempts: nat,
    plan: Plan, resolution: Option<Kind>, resolutionEvent: Option<nat>)

  datatype Book = Book(current: Option<Confirmation>, history: seq<Confirmation>)

  const EMPTY := Book(None, [])

  // ---------- Pure operations ----------

  /** `_replace_and_clear`. */
  function Close(b: Book, p: Confirmation): Book { Book(None, b.history + [p]) }

  predicate Waiting(b: Book) { b.current.Some? && b.current.value.status == Pending }

  predicate Overdue(b: Book, now: int) { Waiting(b) && now >= b.current.value.expiresAt }

  /** The effect of `current`; what it returns is the resulting `current` field. */
  function Look(b: Book, now: int): Book {
    if Overdue(b, now) then Close(b, b.current.value.(status := Expired)) else b
  }

  function Create(b: Book, id: nat, plan: Plan, event: nat, now: int, timeout: int, maxAttempts: nat): Book {
    var rest := if Waiting(b) then Close(b, b.current.value.(status := Superseded)) else b;
    Book(Some(Confirmation(id, event, now, now + timeout, Pending, 0, maxAttempts, plan, None, None)), rest.history)
  }

  /** The final status of a resolution; the other kinds make `resolve` raise. */
  function FinalStatus(kind: Kind): Option<Status> {
    match kind
    case Affirmative => Some(ResolvedPositive)
    case Negative => Some(ResolvedNegative)
    case Cancel => Some(Canceled)
    case NewRequest => Some(Superseded)
    case _ => None
  }

  function AnswerFinally(b: Book, p: Confirmation, kind: Kind, event: nat): Option<Book> {
    match FinalStatus(kind)
    case None => None
    case Some(s) => Some(Close(b, p.(status := s, resolution := Some(kind), resolutionEvent := Some(event))))
  }

  /** `revise`, with the plan it rebuilds. */
  function Revise(b: Book, p: Confirmation, kind: Kind, event: nat, plan: Plan): Book {
    if p.attempts + 1 >= p.maxAttempts then
      Close(b, p.(status := Failed, attempts := p.attempts + 1, resolution := Some(kind), resolutionEvent := Some(event)))
    else b.(current := Some(p.(attempts := p.attempts + 1, sourceEvent := event, plan := plan)))
  }

  // ---------- Invariant ----------

  function Ids(history: seq<Confirmation>): seq<nat> {
    seq(|history|, i requires 0 <= i < |history| => history[i].id)
  }

  /** The book in order of creation. */
  function AllIds(b: Book): seq<nat> {
    Ids(b.history) + if b.current.Some? then [b.current.value.id] else []
  }

  predicate GoodRecord(p: Confirmation, timeout: int) {
    p.expiresAt == p.createdAt + timeout && p.attempts <= p.maxAttempts && (p.status == Failed ==> p.attempts == p.maxAttempts)
  }

  predicate Distinct(ids: seq<nat>) { forall i, j | 0 <= i < j < |ids| :: ids[i] != ids[j] }

  /** Every confirmation ever created, listed in `created`, is either the current one or in the
      history exactly once with a final status, in order of creation. */
  predicate Conserves(b: Book, created: seq<nat>) {
    && AllIds(b) == created && Distinct(created)
    && (b.current.Some? ==> b.current.value.status == Pending)
    && (forall i | 0 <= i < |b.history| :: b.history[i].status != Pending)
  }

  predicate Good(b: Book, timeout: int) {
    && (b.current.Some? ==> GoodRecord(b.current.value, timeout) && b.current.value.attempts < b.current.value.maxAttempts)
    && (forall i | 0 <= i < |b.history| :: GoodRecord(b.history[i], timeout))
  }

  lemma IdsOfClose(b: Book, p: Confirmation)
    ensures AllIds(Close(b, p)) == Ids(b.history) + [p.id]
  {
  }

  lemma LookConserves(b: Book, created: seq<nat>, now: int, timeout: int)
    requires Conserves(b, created) && Good(b, timeout)
    ensures Conserves(Look(b, now), created) && Good(Look(b, now), timeout)
    ensures Look(b, now).current == if b.current.Some? && now < b.current.value.expiresAt then b.current else None
  {
    if Overdue(b, now) { IdsOfClose(b, b.current.value.(status := Expired)); }
  }

  lemma CreateConserves(b: Book, created: seq<nat>, id: nat, plan: Plan, event: nat, now: int, timeout: int, maxAttempts: nat)
    requires Conserves(b, created) && Good(b, timeout) && id !in created && maxAttempts > 0
    ensures var c := Create(b, id, plan, event, now, timeout, maxAttempts);
            Conserves(c, created + [id]) && Good(c, timeout)
  {
    if Waiting(b) { IdsOfClose(b, b.current.value.(status := Superseded)); }
    var c := Create(b, id, plan, event, now, timeout, maxAttempts);
    assert AllIds(c) == created + [id];
  }

  /** `resolve` conserves exactly when it is given the current confirmation: given any other
      pending one, the current one disappears or the given one is recorded twice. */
  lemma ResolveConservesIff(b: Book, created: seq<nat>, p: Confirmation, kind: Kind, event: nat)
    requires Conserves(b, created) && FinalStatus(kind).Some?
    ensures Conserves(AnswerFinally(b, p, kind, event).value, created) <==> b.current.Some? && b.current.value.id == p.id
  {
    var c := AnswerFinally(b, p, kind, event).value;
    IdsOfClose(b, p.(status := FinalStatus(kind).value, resolution := Some(kind), resolutionEvent := Some(event)));
    if b.current.Some? {
      assert AllIds(c)[|b.history|] == p.id && AllIds(b)[|b.history|] == b.current.value.id;
    } else {
      assert |AllIds(c)| == |AllIds(b)| + 1;
    }
  }

  lemma ReviseConservesIff(b: Book, created: seq<nat>, p: Confirmation, kind: Kind, event: nat, plan: Plan)
    requires Conserves(b, created) && p.status == Pending
    ensures Conserves(Revise(b, p, kind, event, plan), created) <==> b.current.Some? && b.current.value.id == p.id
  {
    var c := Revise(b, p, kind, event, plan);
    assert AllIds(c) == Ids(b.history) + [p.id];
    if b.current.Some? {
      assert AllIds(c)[|b.history|] == p.id && AllIds(b)[|b.history|] == b.current.value.id;
    } else {
      assert |AllIds(c)| == |AllIds(b)| + 1;
    }
  }

  /** A non-final answer moves neither the expiry nor the identity, and uses up an attempt. */
  lemma ReviseMeasure(b: Book, p: Confirmation, kind: Kind, event: nat, plan: Plan, timeout: int)
    requires Good(b, timeout) && b.current == Some(p) && p.status == Pending
    ensures Good(Revise(b, p, kind, event, plan), timeout)
    ensures var c := Revise(b, p, kind, event, plan);
      if c.current.Some?
      then c.current.value.id == p.id && c.current.value.createdAt == p.createdAt && c.current.value.expiresAt == p.expiresAt
           && c.current.value.maxAttempts - c.current.value.attempts == p.maxAttempts - p.attempts - 1
      else p.attempts + 1 == p.maxAttempts && c.history[|c.history| - 1].status == Failed
  {
  }

  // ---------- Reading and answering ----------

  /** What other threads do between the reading of a confirmation and the answer to it. */
  function Looks(b: Book, times: seq<int>): Book {
    if times == [] then b else Look(Looks(b, times[..|times| - 1]), times[|times| - 1])
  }

  lemma {:induction false} LooksConserve(b: Book, created: seq<nat>, p: Confirmation, times: seq<int>, timeout: int)
    requires Conserves(b, created) && Good(b, timeout) && b.current == Some(p)
    ensures Conserves(Looks(b, times), created) && Good(Looks(b, times), timeout)
    ensures Looks(b, times).current == if forall i | 0 <= i < |times| :: times[i] < p.expiresAt then Some(p) else None
  {
    if times != [] {
      var front := times[..|times| - 1];
      LooksConserve(b, created, p, front, timeout);
      LookConserves(Looks(b, front), created, times[|times| - 1], timeout);
      assert forall i | 0 <= i < |front| :: front[i] == times[i];
    }
  }

  /** An answer to a confirmation that was read, and then looked at by others, conserves exactly
      when none of them noticed that it had expired. */
  lemma AnswerConservesIff(b: Book, created: seq<nat>, p: Confirmation, times: seq<int>, timeout: int, kind: Kind, event: nat, plan: Plan)
    requires Conserves(b, created) && Good(b, timeout) && b.current == Some(p)
    ensures var c := Looks(b, times);
      && (FinalStatus(kind).Some? ==>
            (Conserves(AnswerFinally(c, p, kind, event).value, created) <==> forall i | 0 <= i < |times| :: times[i] < p.expiresAt))
      && (Conserves(Revise(c, p, kind, event, plan), created) <==> forall i | 0 <= i < |times| :: times[i] < p.expiresAt)
  {
    LooksConserve(b, created, p, times, timeout);
    if FinalStatus(kind).Some? { ResolveConservesIff(Looks(b, times), created, p, kind, event); }
    ReviseConservesIff(Looks(b, times), created, p, kind, event, plan);
  }

  // ---------- Runs ----------

  /** The book, and the confirmation that a turn has read and not answered yet. */
  datatype Desk = Desk(book: Book, reading: Option<Confirmation>)

  /** Any thread may look at any time; turns read, answer and create one after the other. */
  datatype Op =
    | OpLook(now: int)
    | OpRead(now: int)
    | OpCreate(id: nat, plan: Plan, event: nat, now: int)
    | OpResolve(kind: Kind, event: nat)
    | OpRevise(kind: Kind, event: nat, plan: Plan)

  predicate Can(d: Desk, op: Op) {
    match op
    case OpLook(_) => true
    case OpRead(_) => d.reading.None?
    case OpCreate(_, _, _, _) => d.reading.None?
    case OpResolve(kind, _) => d.reading.Some? && FinalStatus(kind).Some?
    case OpRevise(_, _, _) => d.reading.Some?
  }

  function Apply(d: Desk, op: Op, timeout: int, maxAttempts: nat): Desk
    requires Can(d, op)
  {
    match op
    case OpLook(now) => d.(book := Look(d.book, now))
    case OpRead(now) => Desk(Look(d.book, now), Look(d.book, now).current)
    case OpCreate(id, plan, event, now) => d.(book := Create(d.book, id, plan, event, now, timeout, maxAttempts))
    case OpResolve(kind, event) => Desk(AnswerFinally(d.book, d.reading.value, kind, event).value, None)
    case OpRevise(kind, event, plan) => Desk(Revise(d.book, d.reading.value, kind, event, plan), None)
  }

  predicate Answer(op: Op) { op.OpResolve? || op.OpRevise? }

  /** An answer to a confirmation that is no longer the current one. */
  predicate Stale(d: Desk, op: Op) { Answer(op) && d.book.current != d.reading }

  function CreatedBy(op: Op): seq<nat> { if op.OpCreate? then [op.id] else [] }

  function Created(ops: seq<Op>, n: nat): seq<nat>
    requires n <= |ops|
  {
    if n == 0 then [] else Created(ops, n - 1) + CreatedBy(ops[n - 1])
  }

  ghost predicate IsRun(ds: seq<Desk>, ops: seq<Op>, timeout: int, maxAttempts: nat) {
    && |ds| == |ops| + 1 && ds[0] == Desk(EMPTY, None) && maxAttempts > 0
    && forall i | 0 <= i < |ops| ::
         && Can(ds[i], ops[i]) && ds[i + 1] == Apply(ds[i], ops[i], timeout, maxAttempts)
         && (ops[i].OpCreate? ==> ops[i].id !in Created(ops, i))
  }

  /** The number of stale answers among the first `n` operations. */
  function StaleAnswers(ds: seq<Desk>, ops: seq<Op>, n: nat): nat
    requires n <= |ops| && |ds| == |ops| + 1
  {
    if n == 0 then 0 else StaleAnswers(ds, ops, n - 1) + if Stale(ds[n - 1], ops[n - 1]) then 1 else 0
  }

  /** What holds in every run: nothing created is missing and nothing else is there, and what was
      read is the current confirmation, or none is current and its expiry was noticed. */
  ghost predicate Sound(b: Book, created: seq<nat>, timeout: int) {
    && Good(b, timeout) && Distinct(created)
    && (forall id :: id in AllIds(b) <==> id in created)
    && (b.current.Some? ==> b.current.value.status == Pending)
  }

  predicate Fits(p: Confirmation, created: seq<nat>, timeout: int) {
    p.id in created && p.status == Pending && GoodRecord(p, timeout) && p.attempts < p.maxAttempts
  }

  predicate ReadRight(b: Book, p: Confirmation) {
    b.current == Some(p) || (b.current.None? && p.(status := Expired) in b.history)
  }

  ghost predicate Kept(d: Desk, created: seq<nat>, timeout: int) {
    && Sound(d.book, created, timeout)
    && (d.reading.Some? ==> Fits(d.reading.value, created, timeout) && ReadRight(d.book, d.reading.value))
  }

  lemma CloseIds(b: Book, p: Confirmation)
    ensures forall id :: id in AllIds(Close(b, p)) <==> id in Ids(b.history) || id == p.id
    ensures |AllIds(Close(b, p))| == |b.history| + 1
  {
    IdsOfClose(b, p);
  }

  lemma LookSound(b: Book, created: seq<nat>, now: int, timeout: int)
    requires Sound(b, created, timeout)
    ensures Sound(Look(b, now), created, timeout) && |AllIds(Look(b, now))| == |AllIds(b)|
    ensures Look(b, now).current == if b.current.Some? && now < b.current.value.expiresAt then b.current else None
    ensures forall p | ReadRight(b, p) :: ReadRight(Look(b, now), p)
    ensures b.current.Some? ==> Fits(b.current.value, created, timeout)
  {
    if b.current.Some? { assert AllIds(b)[|b.history|] == b.current.value.id; }
    if Overdue(b, now) {
      CloseIds(b, b.current.value.(status := Expired));
      forall p | ReadRight(b, p) ensures ReadRight(Look(b, now), p) {
        assert Look(b, now).history[|b.history|] == b.current.value.(status := Expired);
      }
    }
  }

  lemma CreateSound(b: Book, created: seq<nat>, id: nat, plan: Plan, event: nat, now: int, timeout: int, maxAttempts: nat)
    requires Sound(b, created, timeout) && id !in created && maxAttempts > 0
    ensures var c := Create(b, id, plan, event, now, timeout, maxAttempts);
            Sound(c, created + [id], timeout) && |AllIds(c)| == |AllIds(b)| + 1
  {
    var c := Create(b, id, plan, event, now, timeout, maxAttempts);
    if Waiting(b) { IdsOfClose(b, b.current.value.(status := Superseded)); }
    assert AllIds(c) == AllIds(b) + [id];
  }

  /** The answers, stale or not, as long as they concern a confirmation that was pending. */
  lemma AnswerSound(b: Book, created: seq<nat>, p: Confirmation, timeout: int, kind: Kind, event: nat, plan: Plan)
    requires Sound(b, created, timeout) && Fits(p, created, timeout) && (b.current.None? || b.current.value.id == p.id)
    ensures var more := if b.current.None? then 1 else 0;
      && (FinalStatus(kind).Some? ==>
            var c := AnswerFinally(b, p, kind, event).value;
            Sound(c, created, timeout) && |AllIds(c)| == |AllIds(b)| + more)
      && Sound(Revise(b, p, kind, event, plan), created, timeout)
      && |AllIds(Revise(b, p, kind, event, plan))| == |AllIds(b)| + more
  {
    if FinalStatus(kind).Some? {
      IdsOfClose(b, p.(status := FinalStatus(kind).value, resolution := Some(kind), resolutionEvent := Some(event)));
    }
    assert AllIds(Revise(b, p, kind, event, plan)) == Ids(b.history) + [p.id];
  }

  lemma StepKept(d: Desk, created: seq<nat>, op: Op, timeout: int, maxAttempts: nat)
    requires Kept(d, created, timeout) && Can(d, op) && maxAttempts > 0 && (op.OpCreate? ==> op.id !in created)
    ensures var e := Apply(d, op, timeout, maxAttempts);
      Kept(e, created + CreatedBy(op), timeout)
      && |AllIds(e.book)| == |AllIds(d.book)| + |CreatedBy(op)| + if Stale(d, op) then 1 else 0
  {
    assert created + [] == created;
    match op {
      case OpLook(now) => LookSound(d.book, created, now, timeout);
      case OpRead(now) => LookSound(d.book, created, now, timeout); LookSound(Look(d.book, now), created, now, timeout);
      case OpCreate(id, plan, event, now) => CreateSound(d.book, created, id, plan, event, now, timeout, maxAttempts);
      case OpResolve(kind, event) => AnswerSound(d.book, created, d.reading.value, timeout, kind, event, d.reading.value.plan);
      case OpRevise(kind, event, plan) => AnswerSound(d.book, created, d.reading.value, timeout, kind, event, plan);
    }
  }

  lemma StepConserves(d: Desk, created: seq<nat>, op: Op, timeout: int, maxAttempts: nat)
    requires Kept(d, created, timeout) && Conserves(d.book, created) && Can(d, op) && maxAttempts > 0
    requires (op.OpCreate? ==> op.id !in created) && !Stale(d, op)
    ensures Conserves(Apply(d, op, timeout, maxAttempts).book, created + CreatedBy(op))
  {
    assert created + [] == created;
    match op {
      case OpLook(now) => LookConserves(d.book, created, now, timeout);
      case OpRead(now) => LookConserves(d.book, created, now, timeout);
      case OpCreate(id, plan, event, now) => CreateConserves(d.book, created, id, plan, event, now, timeout, maxAttempts);
      case OpResolve(kind, event) => ResolveConservesIff(d.book, created, d.reading.value, kind, event);
      case OpRevise(kind, event, plan) => ReviseConservesIff(d.book, created, d.reading.value, kind, event, plan);
    }
  }

  lemma {:induction false} RunKept(ds: seq<Desk>, ops: seq<Op>, timeout: int, maxAttempts: nat, n: nat)
    requires IsRun(ds, ops, timeout, maxAttempts) && n <= |ops|
    ensures Kept(ds[n], Created(ops, n), timeout)
    ensures |AllIds(ds[n].book)| == |Created(ops, n)| + StaleAnswers(ds, ops, n)
    ensures StaleAnswers(ds, ops, n) == 0 ==> Conserves(ds[n].book, Created(ops, n))
  {
    if n > 0 {
      RunKept(ds, ops, timeout, maxAttempts, n - 1);
      StepKept(ds[n - 1], Created(ops, n - 1), ops[n - 1], timeout, maxAttempts);
      if StaleAnswers(ds, ops, n) == 0 { StepConserves(ds[n - 1], Created(ops, n - 1), ops[n - 1], timeout, maxAttempts); }
    }
  }

  /** Over every run: all that was created is there, and nothing else. Each stale answer leaves one
      record too many; without any, and only then, everything created is current or in history
      exactly once, finished, in order of creation. */
  lemma RunConserves(ds: seq<Desk>, ops: seq<Op>, timeout: int, maxAttempts: nat, n: nat)
    requires IsRun(ds, ops, timeout, maxAttempts) && n <= |ops|
    ensures forall id :: id in AllIds(ds[n].book) <==> id in Created(ops, n)
    ensures |AllIds(ds[n].book)| == |Created(ops, n)| + StaleAnswers(ds, ops, n)
    ensures Conserves(ds[n].book, Created(ops, n)) <==> StaleAnswers(ds, ops, n) == 0
  {
    RunKept(ds, ops, timeout, maxAttempts, n);
  }

  /** Where the confirmation that is being read was read. */
  lemma {:induction false} ReadAt(ds: seq<Desk>, ops: seq<Op>, timeout: int, maxAttempts: nat, n: nat) returns (r: nat)
    requires IsRun(ds, ops, timeout, maxAttempts) && n <= |ops| && ds[n].reading.Some?
    ensures r < n && ops[r].OpRead? && ds[r + 1].reading == ds[r + 1].book.current == ds[n].reading
    ensures ops[r].now < ds[n].reading.value.expiresAt
    ensures forall j | r < j < n :: ops[j].OpLook?
    ensures ds[n].book.current != ds[n].reading <==> exists j | r < j < n :: ops[j].now >= ds[n].reading.value.expiresAt
  {
    RunKept(ds, ops, timeout, maxAttempts, n - 1);
    LookSound(ds[n - 1].book, Created(ops, n - 1), if ops[n - 1].OpLook? || ops[n - 1].OpRead? then ops[n - 1].now else 0, timeout);
    if ops[n - 1].OpRead? {
      r := n - 1;
    } else {
      r := ReadAt(ds, ops, timeout, maxAttempts, n - 1);
    }
  }

  /** An answer is stale exactly when, since its confirmation was read, another thread looked at
      the book after the expiry. */
  lemma StaleExactly(ds: seq<Desk>, ops: seq<Op>, timeout: int, maxAttempts: nat, n: nat) returns (r: nat)
    requires IsRun(ds, ops, timeout, maxAttempts) && n < |ops| && Answer(ops[n])
    ensures r < n && ops[r].OpRead? && ds[r + 1].book.current == ds[n].reading && forall j | r < j < n :: ops[j].OpLook?
    ensures Stale(ds[n], ops[n]) <==> exists j | r < j < n :: ops[j].now >= ds[n].reading.value.expiresAt
  {
    r := ReadAt(ds, ops, timeout, maxAttempts, n);
  }

  function AllRecords(b: Book): seq<Confirmation> {
    b.history + if b.current.Some? then [b.current.value] else []
  }

  /** When `id` was created, within the first `n` operations. */
  function CreationTime(ops: seq<Op>, n: nat, id: nat): Option<int>
    requires n <= |ops|
  {
    if n == 0 then None
    else if ops[n - 1].OpCreate? && ops[n - 1].id == id then Some(ops[n - 1].now)
    else CreationTime(ops, n - 1, id)
  }

  predicate SameTimes(r: Confirmation, q: Confirmation) {
    r.id == q.id && r.createdAt == q.createdAt && r.expiresAt == q.expiresAt
  }

  /** No operation touches the times of a record. */
  lemma TimesStay(d: Desk, op: Op, timeout: int, maxAttempts: nat, r: Confirmation)
    requires Can(d, op) && (d.reading.Some? ==> ReadRight(d.book, d.reading.value))
    requires r in AllRecords(Apply(d, op, timeout, maxAttempts).book)
    ensures (exists q :: q in AllRecords(d.book) && SameTimes(r, q))
            || (op.OpCreate? && r.id == op.id && r.createdAt == op.now && r.expiresAt == op.now + timeout)
  {
    if r in d.book.history {
      assert r in AllRecords(d.book) && SameTimes(r, r);
    } else if d.book.current.Some? && SameTimes(r, d.book.current.value) {
      assert d.book.current.value in AllRecords(d.book);
    } else if d.reading.Some? && SameTimes(r, d.reading.value) {
      assert d.reading.value.(status := Expired) in AllRecords(d.book);
    }
  }

  /** Over every run: whatever was answered or asked meanwhile, stale or not, every record, current
      or finished, expires the timeout after its own creation. */
  lemma {:induction false} ExpiryNeverMoves(ds: seq<Desk>, ops: seq<Op>, timeout: int, maxAttempts: nat, n: nat, r: Confirmation)
    requires IsRun(ds, ops, timeout, maxAttempts) && n <= |ops| && r in AllRecords(ds[n].book)
    ensures CreationTime(ops, n, r.id) == Some(r.createdAt) && r.expiresAt == r.createdAt + timeout
  {
    if n > 0 {
      RunKept(ds, ops, timeout, maxAttempts, n - 1);
      TimesStay(ds[n - 1], ops[n - 1], timeout, maxAttempts, r);
      if q :| q in AllRecords(ds[n - 1].book) && SameTimes(r, q) {
        ExpiryNeverMoves(ds, ops, timeout, maxAttempts, n - 1, q);
        RecordIsCreated(ds[n - 1].book, Created(ops, n - 1), timeout, q);
      }
    }
  }

  lemma RecordIsCreated(b: Book, created: seq<nat>, timeout: int, q: Confirmation)
    requires Sound(b, created, timeout) && q in AllRecords(b)
    ensures q.id in created
  {
    var i :| 0 <= i < |AllRecords(b)| && AllRecords(b)[i] == q;
    assert AllIds(b)[i] == q.id;
  }

  /** What a record in the history says happened to it. */
  predicate RecordTells(r: Confirmation) {
    match r.status
    case Pending => false
    case ResolvedPositive => r.resolution == Some(Affirmative)
    case ResolvedNegative => r.resolution == Some(Negative)
    case Canceled => r.resolution == Some(Cancel)
    case Superseded => r.resolution == None || r.resolution == Some(NewRequest)
    case Expired => r.resolution == None
    case Failed => r.resolution.Some? && r.attempts == r.maxAttempts
  }

  ghost predicate AllTell(d: Desk) {
    && (forall r | r in d.book.history :: RecordTells(r))
    && (d.book.current.Some? ==> d.book.current.value.resolution == None)
    && (d.reading.Some? ==> d.reading.value.resolution == None)
  }

  lemma CloseTells(b: Book, p: Confirmation)
    requires (forall r | r in b.history :: RecordTells(r)) && RecordTells(p)
    ensures forall r | r in Close(b, p).history :: RecordTells(r)
  {
    forall r | r in Close(b, p).history ensures RecordTells(r) {
      if r !in b.history { assert r == p; }
    }
  }

  lemma StepTells(d: Desk, op: Op, timeout: int, maxAttempts: nat)
    requires AllTell(d) && Can(d, op)
    requires d.reading.Some? ==> d.reading.value.attempts < d.reading.value.maxAttempts
    ensures AllTell(Apply(d, op, timeout, maxAttempts))
  {
    var b := d.book;
    match op {
      case OpLook(now) => if Overdue(b, now) { CloseTells(b, b.current.value.(status := Expired)); }
      case OpRead(now) => if Overdue(b, now) { CloseTells(b, b.current.value.(status := Expired)); }
      case OpCreate(id, plan, event, now) => if Waiting(b) { CloseTells(b, b.current.value.(status := Superseded)); }
      case OpResolve(kind, event) =>
        CloseTells(b, d.reading.value.(status := FinalStatus(kind).value, resolution := Some(kind), resolutionEvent := Some(event)));
      case OpRevise(kind, event, plan) =>
        var p := d.reading.value;
        if p.attempts + 1 >= p.maxAttempts {
          CloseTells(b, p.(status := Failed, attempts := p.attempts + 1, resolution := Some(kind), resolutionEvent := Some(event)));
        }
    }
  }

  /** Over every run: each finished record tells how it was answered, expired or was superseded. */
  lemma {:induction false} HistoryTells(ds: seq<Desk>, ops: seq<Op>, timeout: int, maxAttempts: nat, n: nat)
    requires IsRun(ds, ops, timeout, maxAttempts) && n <= |ops|
    ensures AllTell(ds[n])
  {
    if n > 0 {
      HistoryTells(ds, ops, timeout, maxAttempts, n - 1);
      RunKept(ds, ops, timeout, maxAttempts, n - 1);
      StepTells(ds[n - 1], ops[n - 1], timeout, maxAttempts);
    }
  }

  /** How many non-final answers were given to `id` in the first `n` operations. */
  function Answers(ds: seq<Desk>, ops: seq<Op>, n: nat, id: nat): nat
    requires n <= |ops| && |ds| == |ops| + 1
  {
    if n == 0 then 0 else Answers(ds, ops, n - 1, id) + Counts(ds[n - 1], ops[n - 1], id)
  }

  function Counts(d: Desk, op: Op, id: nat): nat {
    if op.OpRevise? && d.reading.Some? && d.reading.value.id == id then 1 else 0
  }

  /** The record of `id`: the current one, or one in history. */
  predicate Has(b: Book, id: nat, attempts: nat, maxAttempts: nat) {
    if b.current.Some? && b.current.value.id == id then b.current.value.attempts == attempts && b.current.value.maxAttempts == maxAttempts
    else exists i :: 0 <= i < |b.history| && b.history[i].id == id && b.history[i].attempts == attempts && b.history[i].maxAttempts == maxAttempts
  }

  predicate Counted(d: Desk, id: nat, attempts: nat, maxAttempts: nat) {
    && attempts <= maxAttempts && Has(d.book, id, attempts, maxAttempts)
    && (d.reading.Some? && d.reading.value.id == id ==> d.reading.value.attempts == attempts && d.reading.value.maxAttempts == maxAttempts)
  }

  /** At most `max_attempts` non-final answers are ever accepted for one confirmation. */
  lemma {:induction false} AnswersAreBounded(ds: seq<Desk>, ops: seq<Op>, timeout: int, maxAttempts: nat, n: nat, id: nat)
    requires IsRun(ds, ops, timeout, maxAttempts) && n <= |ops|
    ensures id in Created(ops, n) ==> Counted(ds[n], id, Answers(ds, ops, n, id), maxAttempts)
    ensures id !in Created(ops, n) ==> Answers(ds, ops, n, id) == 0
    ensures Answers(ds, ops, n, id) <= maxAttempts
  {
    if n > 0 {
      AnswersAreBounded(ds, ops, timeout, maxAttempts, n - 1, id);
      RunKept(ds, ops, timeout, maxAttempts, n - 1);
      if id in Created(ops, n - 1) {
        CountedAfter(ds[n - 1], Created(ops, n - 1), ops[n - 1], timeout, maxAttempts, id, Answers(ds, ops, n - 1, id));
      }
    }
  }

  lemma CountedAfter(d: Desk, created: seq<nat>, op: Op, timeout: int, maxAttempts: nat, id: nat, k: nat)
    requires Kept(d, created, timeout) && Can(d, op) && maxAttempts > 0 && Counted(d, id, k, maxAttempts) && id in created
    requires op.OpCreate? ==> op.id !in created
    ensures Counted(Apply(d, op, timeout, maxAttempts), id, k + Counts(d, op, id), maxAttempts)
  {
    var c := Apply(d, op, timeout, maxAttempts).book;
    if c.current.None? || c.current.value.id != id {
      if (d.book.current.Some? && d.book.current.value.id == id) || (Answer(op) && d.reading.value.id == id) {
        assert c.history[|d.book.history|].id == id;
      } else {
        var i :| 0 <= i < |d.book.history| && d.book.history[i].id == id && d.book.history[i].attempts == k && d.book.history[i].maxAttempts == maxAttempts;
        assert c.history[i] == d.book.history[i];
      }
    }
  }

  // ---------- The manager object ----------

  class PendingConfirmationManager {
    const timeout: int
    const maxAttempts: nat
    var current: Option<Confirmation>
    var history: seq<Confirmation>
    ghost var created: seq<nat>

    ghost function Model(): Book
      reads this
    {
      Book(current, history)
    }

    ghost predicate Valid()
      reads this
    {
      timeout > 0 && maxAttempts > 0 && Sound(Model(), created, timeout)
    }

    constructor (timeout: int, maxAttempts: nat)
      requires timeout > 0 && maxAttempts > 0
      ensures Valid() && Model() == EMPTY && created == []
      ensures this.timeout == timeout && this.maxAttempts == maxAttempts
    {
      this.timeout, this.maxAttempts := timeout, maxAttempts;
      current, history, created := None, [], [];
    }

    method Finish(p: Confirmation)
      modifies this`current, this`history
      ensures Model() == Close(old(Model()), p)
    {
      history := history + [p];
      current := None;
    }

    method Current(now: int) returns (r: Option<Confirmation>)
      requires Valid()
      modifies this`current, this`history
      ensures Valid() && Model() == Look(old(Model()), now) && r == current
      ensures r == if old(current).Some? && now < old(current).value.expiresAt then old(current) else None
      ensures r.Some? ==> Fits(r.value, created, timeout)
    {
      LookSound(Model(), created, now, timeout);
      if current.Some? && current.value.status == Pending && now >= current.value.expiresAt {
        Finish(current.value.(status := Expired));
        return None;
      }
      r := if current.Some? && current.value.status == Pending then current else None;
    }

    method CreateFor(id: nat, plan: Plan, event: nat, now: int) returns (p: Confirmation)
      requires Valid() && id !in created
      modifies this
      ensures Valid() && created == old(created) + [id] && current == Some(p)
      ensures Model() == Create(old(Model()), id, plan, event, now, timeout, maxAttempts)
      ensures old(Conserves(Model(), created)) ==> Conserves(Model(), created)
    {
      CreateSound(Model(), created, id, plan, event, now, timeout, maxAttempts);
      if Conserves(Model(), created) { CreateConserves(Model(), created, id, plan, event, now, timeout, maxAttempts); }
      if current.Some? && current.value.status == Pending {
        Finish(current.value.(status := Superseded));
      }
      p := Confirmation(id, event, now, now + timeout, Pending, 0, maxAttempts, plan, None, None);
      current := Some(p);
      created := created + [id];
    }

    /** Was `p` pending, and is no other confirmation current? */
    ghost predicate Answerable(p: Confirmation)
      reads this
    {
      Fits(p, created, timeout) && (current.None? || current.value.id == p.id)
    }

    /** `resolve`, given any confirmation, current or not; `None` when it raises. */
    method ResolveItem(p: Confirmation, kind: Kind, event: nat) returns (finished: Option<Confirmation>)
      modifies this`current, this`history
      ensures finished == match FinalStatus(kind) case None => None
                          case Some(s) => Some(p.(status := s, resolution := Some(kind), resolutionEvent := Some(event)))
      ensures if finished.Some? then Some(Model()) == AnswerFinally(old(Model()), p, kind, event) else Model() == old(Model())
      ensures old(Valid() && Answerable(p)) ==> Valid()
      ensures old(Conserves(Model(), created)) && finished.Some? ==>
                (Conserves(Model(), created) <==> old(current).Some? && old(current).value.id == p.id)
    {
      if Valid() && Answerable(p) { AnswerSound(Model(), created, p, timeout, kind, event, p.plan); }
      if Conserves(Model(), created) && FinalStatus(kind).Some? { ResolveConservesIff(Model(), created, p, kind, event); }
      if FinalStatus(kind).None? { return None; }
      finished := Some(p.(status := FinalStatus(kind).value, resolution := Some(kind), resolutionEvent := Some(event)));
      Finish(finished.value);
    }

    /** `revise`, given any confirmation, current or not. */
    method ReviseItem(p: Confirmation, kind: Kind, event: nat, plan: Plan) returns (revised: Option<Confirmation>)
      modifies this`current, this`history
      ensures Model() == Revise(old(Model()), p, kind, event, plan) && revised == current
      ensures revised == if p.attempts + 1 < p.maxAttempts then Some(p.(attempts := p.attempts + 1, sourceEvent := event, plan := plan)) else None
      ensures old(Valid() && Answerable(p)) ==> Valid()
      ensures old(Conserves(Model(), created)) && p.status == Pending ==>
                (Conserves(Model(), created) <==> old(current).Some? && old(current).value.id == p.id)
    {
      if Valid() && Answerable(p) { AnswerSound(Model(), created, p, timeout, kind, event, plan); }
      if Conserves(Model(), created) && p.status == Pending { ReviseConservesIff(Model(), created, p, kind, event, plan); }
      var attempts := p.attempts + 1;
      if attempts >= p.maxAttempts {
        Finish(p.(status := Failed, attempts := attempts, resolution := Some(kind), resolutionEvent := Some(event)));
        return None;
      }
      current := Some(p.(attempts := attempts, sourceEvent := event, plan := plan));
      revised := current;
    }
  }
}
