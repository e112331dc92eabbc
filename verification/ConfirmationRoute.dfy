/**
 The behaviour route for the inputs of the user. Each input is a turn: it reads the pending
 confirmation and answers it, or is analysed and planned, then asks, or validates its plan and
 hands it to a plugin. Turns interleave where the route awaits, which it does not between reading
 and answering; other threads may notice an expiry there too. `log` records what mattered; a
 command is a call of a plugin's handler.
*/
module ConfirmationRoute {
  import opened Options
  import opened ConstraintSchema
  import opened BehaviorPlanning
  import opened PendingConfirmations

  datatype Origin = Direct(analysis: Analysis) | Confirmed(id: nat, candidate: Plan)

  datatype Entry =
    | Asked(id: nat, candidate: Plan, expiresAt: int)
    | Read(turn: nat, id: nat, candidate: Plan, now: int)
    | Noticed(id: nat, now: int)           // somebody noticed that it has expired
    | Affirmed(turn: nat, id: nat, candidate: Plan)
    | Revised(turn: nat, id: nat)          // it is pending again, with another attempt used up
    | Dropped(id: nat)                     // refused, cancelled, superseded or failed
    | Command(turn: nat, origin: Origin, plan: Plan, context: Context, world: World)
    | StopEnded(turn: nat, succeeded: bool)  // how the stop that a switch begins with went

  /** What a turn reads from elsewhere: the interpretation of the text as an answer and as a
      situation, the planning context, what the validator sees each time it is asked, and how
      far the plugins get. */
  datatype Input = Input(
    event: nat, resolution: Resolution, analysis: Analysis, context: Context,
    revising: Option<seq<Definition>>, first: World, stop: World, stopAgain: World, again: World,
    stopReachesHandler: bool, stopSucceeds: bool, reachesHandler: bool)

  datatype Reply = Question(id: nat) | AnswerNoted | NotExecuted | HandedOver | Talk

  /** Where a turn is between two of its steps. */
  datatype Stage =
    | Reading(pending: Confirmation, input: Input)       // has read, and will answer next
    | Planning(input: Input)                             // awaits analysis and plan
    | Ready(origin: Origin, plan: Plan, input: Input)    // has a plan that does not ask
    | Finished(reply: Reply)

  // ---------- Reading the log ----------

  datatype Fate = NeverAsked | Open(candidate: Plan, expiresAt: int) | Over(candidate: Plan, expiresAt: int) | SaidYes | Gone

  function NextFate(f: Fate, e: Entry, id: nat): Fate {
    if e.Asked? && e.id == id then Open(e.candidate, e.expiresAt)
    else if e.Noticed? && e.id == id && f.Open? then Over(f.candidate, f.expiresAt)
    else if e.Revised? && e.id == id && f.Over? then Open(f.candidate, f.expiresAt)
    else if e.Affirmed? && e.id == id then SaidYes
    else if e.Dropped? && e.id == id then Gone
    else f
  }

  function FateOf(log: seq<Entry>, id: nat): Fate {
    if log == [] then NeverAsked else NextFate(FateOf(log[..|log| - 1], id), log[|log| - 1], id)
  }

  /** The reading that is not answered yet: nothing but expiries was noticed since. */
  function Unanswered(log: seq<Entry>): (r: Option<Entry>)
    ensures r.Some? ==> r.value.Read?
  {
    if log == [] then None
    else if log[|log| - 1].Noticed? then Unanswered(log[..|log| - 1])
    else if log[|log| - 1].Read? then Some(log[|log| - 1])
    else None
  }

  predicate Reads(r: Option<Entry>, turn: nat, id: nat) {
    r.Some? && r.value.Read? && r.value.turn == turn && r.value.id == id
  }

  /** Did this turn affirm `id`, with this candidate? */
  predicate AffirmedBy(log: seq<Entry>, turn: nat, id: nat, candidate: Plan) {
    exists i :: 0 <= i < |log| && IsYes(log[i], turn, id, candidate)
  }

  predicate IsYes(e: Entry, turn: nat, id: nat, candidate: Plan) {
    e.Affirmed? && e.turn == turn && e.id == id && e.candidate == candidate
  }

  /** The validator let `plan` through, in the world it was last asked in. */
  ghost predicate Validated(plan: Plan, w: World, check: Check) {
    exists p :: ValidatePlan(p, w, check) == Accepted(plan)
  }

  /** Validating changes constraints only. */
  lemma ValidatedIsSame(p: Plan, w: World, check: Check)
    ensures SameAction(ValidatePlan(p, w, check).plan, p)
  {
  }

  predicate SameAction(p: Plan, q: Plan) {
    p.decision == q.decision && p.activityType == q.activityType && p.operation == q.operation
    && p.capability == q.capability && p.provider == q.provider
  }

  /** The command that stops the active activity for a plan to switch. */
  predicate StopsForSwitch(command: Plan, plan: Plan, context: Context) {
    plan.decision == SwitchActivity && context.active.Some? && Matches(context.active.value, command)
    && command.decision == ContinueActivity && command.operation == Some(Stop)
  }

  /** Does the command do what the plan says? */
  predicate Serves(command: Plan, plan: Plan, context: Context) {
    SameAction(command, plan) || StopsForSwitch(command, plan, context)
  }

  /** The answers may refine a candidate, but not what it is about. */
  predicate SameTarget(p: Plan, q: Plan) {
    p.decision == q.decision && p.activityType == q.activityType && p.capability == q.capability
    && p.provider == q.provider && p.requestedNew == q.requestedNew
  }

  /** Where the plan of a turn comes from. */
  ghost predicate Entitled(log: seq<Entry>, turn: nat, origin: Origin, plan: Plan, context: Context, threshold: real, check: Check) {
    plan.decision != AskConfirmation &&
    match origin
    case Direct(a) =>
      var intended := PlanFromAnalysis(context, a, threshold, check);
      intended.decision != AskConfirmation && Serves(plan, intended, context)
    case Confirmed(id, candidate) =>
      AffirmedBy(log, turn, id, candidate) && Serves(plan, ConfirmedPlan(candidate), context)
  }

  /** May `e` follow `before`? Answers follow their reading, whether or not the expiry was noticed. */
  ghost predicate Legal(before: seq<Entry>, e: Entry, threshold: real, check: Check) {
    match e
    case Asked(id, candidate, _) => FateOf(before, id) == NeverAsked && candidate.decision == AskConfirmation
    case Read(_, id, candidate, now) =>
      var f := FateOf(before, id);
      f.Open? && now < f.expiresAt && SameTarget(candidate, f.candidate)
    case Noticed(id, now) => FateOf(before, id).Open? && now >= FateOf(before, id).expiresAt
    case Affirmed(turn, id, candidate) => Reads(Unanswered(before), turn, id) && Unanswered(before).value.candidate == candidate
    case Revised(turn, id) => Reads(Unanswered(before), turn, id)
    case Dropped(id) => FateOf(before, id).Open? || (Unanswered(before).Some? && Unanswered(before).value.id == id)
    case Command(turn, origin, plan, context, w) =>
      && Entitled(before, turn, origin, plan, context, threshold, check) && Validated(plan, w, check)
      && (plan.capability.Some? || plan.decision == SwitchActivity)
      && (plan.decision == SwitchActivity ==> StoppedBy(before, turn))
    case StopEnded(turn, _) => SentStop(before, turn)
  }

  predicate IsStop(e: Entry, turn: nat) {
    e.Command? && e.turn == turn && e.plan.decision == ContinueActivity && e.plan.operation == Some(Stop)
  }

  predicate SentStop(log: seq<Entry>, turn: nat) { exists i :: 0 <= i < |log| && IsStop(log[i], turn) }

  predicate IsStopped(e: Entry, turn: nat) { e == StopEnded(turn, true) }

  predicate StoppedBy(log: seq<Entry>, turn: nat) { exists i :: 0 <= i < |log| && IsStopped(log[i], turn) }

  ghost predicate Safe(log: seq<Entry>, threshold: real, check: Check) {
    log == [] || (Safe(log[..|log| - 1], threshold, check) && Legal(log[..|log| - 1], log[|log| - 1], threshold, check))
  }

  // ---------- What a safe log means ----------

  lemma {:induction false} SafeAt(log: seq<Entry>, threshold: real, check: Check, k: nat)
    requires Safe(log, threshold, check) && k < |log|
    ensures Safe(log[..k], threshold, check) && Legal(log[..k], log[k], threshold, check)
  {
    var n := |log| - 1;
    if k < n {
      SafeAt(log[..n], threshold, check, k);
      assert log[..n][..k] == log[..k];
    } else {
      assert log[..k] == log[..n];
    }
  }

  /** While a question is open or its expiry was noticed, it was neither affirmed nor dropped. */
  lemma {:induction false} OpenWhen(log: seq<Entry>, id: nat) returns (q: nat)
    requires FateOf(log, id).Open? || FateOf(log, id).Over?
    ensures q < |log| && log[q] == Asked(id, FateOf(log, id).candidate, FateOf(log, id).expiresAt)
    ensures forall j | q < j < |log| :: !Ends(log[j], id)
  {
    var e := log[|log| - 1];
    if e.Asked? && e.id == id { q := |log| - 1; } else { q := OpenWhen(log[..|log| - 1], id); }
  }

  predicate Ends(e: Entry, id: nat) { (e.Dropped? || e.Affirmed?) && e.id == id }

  lemma {:induction false} ReadWhen(log: seq<Entry>) returns (r: nat)
    requires Unanswered(log).Some?
    ensures r < |log| && log[r] == Unanswered(log).value && log[r].Read?
    ensures forall j | r < j < |log| :: log[j].Noticed?
  {
    if log[|log| - 1].Noticed? { r := ReadWhen(log[..|log| - 1]); } else { r := |log| - 1; }
  }

  /** A question that is being answered is open, or its expiry was noticed. */
  lemma {:induction false} ReadStaysOpen(log: seq<Entry>, threshold: real, check: Check)
    requires Safe(log, threshold, check) && Unanswered(log).Some?
    ensures var f := FateOf(log, Unanswered(log).value.id);
            (f.Open? || f.Over?) && Unanswered(log).value.now < f.expiresAt && SameTarget(Unanswered(log).value.candidate, f.candidate)
  {
    var n := |log| - 1;
    SafeAt(log, threshold, check, n);
    if log[n].Noticed? { ReadStaysOpen(log[..n], threshold, check); }
  }

  /** Ids are asked about once. */
  lemma {:induction false} AskedStays(log: seq<Entry>, q: nat, id: nat)
    requires q < |log| && log[q].Asked? && log[q].id == id
    ensures FateOf(log, id) != NeverAsked
  {
    if q < |log| - 1 { AskedStays(log[..|log| - 1], q, id); }
  }

  lemma AskedOnce(log: seq<Entry>, threshold: real, check: Check, p: nat, q: nat)
    requires Safe(log, threshold, check) && p < |log| && q < |log|
    requires log[p].Asked? && log[q].Asked? && log[p].id == log[q].id
    ensures p == q
  {
    var first, last := if p < q then p else q, if p < q then q else p;
    if first < last {
      SafeAt(log, threshold, check, last);
      AskedStays(log[..last], first, log[q].id);
    }
  }

  /** Whoever notices an expiry does so at or after the time fixed when the question was asked. */
  lemma NoticedLate(log: seq<Entry>, threshold: real, check: Check, q: nat, d: nat)
    requires Safe(log, threshold, check) && q < |log| && d < |log| && log[q].Asked? && log[d].Noticed? && log[d].id == log[q].id
    ensures q < d && log[d].now >= log[q].expiresAt
  {
    SafeAt(log, threshold, check, d);
    var p := OpenWhen(log[..d], log[d].id);
    AskedOnce(log, threshold, check, p, q);
  }

  /** Yes was said to a question read by the same turn before its expiry, with nothing in between
      but expiries that others noticed. */
  lemma YesWasRead(log: seq<Entry>, threshold: real, check: Check, a: nat) returns (q: nat, r: nat)
    requires Safe(log, threshold, check) && a < |log| && log[a].Affirmed?
    ensures q < r < a && log[q].Asked? && log[q].id == log[a].id && log[q].candidate.decision == AskConfirmation
    ensures log[r].Read? && log[r].turn == log[a].turn && log[r].id == log[a].id && log[r].candidate == log[a].candidate
    ensures log[r].now < log[q].expiresAt && SameTarget(log[a].candidate, log[q].candidate)
    ensures forall j | r < j < a :: log[j].Noticed?
    ensures forall j | q < j < a :: !Ends(log[j], log[q].id)
  {
    SafeAt(log, threshold, check, a);
    ReadStaysOpen(log[..a], threshold, check);
    r := ReadWhen(log[..a]);
    q := OpenWhen(log[..a], log[a].id);
    SafeAt(log, threshold, check, q);
    SafeAt(log, threshold, check, r);
    var p := OpenWhen(log[..r], log[a].id);
    AskedOnce(log, threshold, check, p, q);
  }

  /** A command from a confirmed candidate, in any interleaving: it was asked about before, this
      very turn read it before the expiry fixed when it was asked and then said yes, and nothing
      had dropped it. */
  lemma ConfirmedCommand(log: seq<Entry>, threshold: real, check: Check, k: nat) returns (q: nat, r: nat, a: nat)
    requires Safe(log, threshold, check) && k < |log| && log[k].Command? && log[k].origin.Confirmed?
    ensures q < r < a < k && IsYes(log[a], log[k].turn, log[k].origin.id, log[k].origin.candidate)
    ensures log[q].Asked? && log[q].id == log[k].origin.id && log[q].candidate.decision == AskConfirmation
    ensures log[r].Read? && log[r].turn == log[k].turn && log[r].id == log[q].id && log[r].candidate == log[k].origin.candidate
    ensures log[r].now < log[q].expiresAt && SameTarget(log[k].origin.candidate, log[q].candidate)
    ensures forall j | r < j < a :: log[j].Noticed?
    ensures forall j | q < j < a :: !Ends(log[j], log[q].id)
  {
    SafeAt(log, threshold, check, k);
    a :| 0 <= a < k && IsYes(log[..k][a], log[k].turn, log[k].origin.id, log[k].origin.candidate);
    q, r := YesWasRead(log, threshold, check, a);
  }

  /** A candidate whose expiry was noticed becomes a command only if that happened between the
      reading of its turn and the yes, or if the clock was set back before the reading. */
  lemma ExpiredCommand(log: seq<Entry>, threshold: real, check: Check, k: nat, d: nat) returns (r: nat, a: nat)
    requires Safe(log, threshold, check) && k < |log| && log[k].Command? && log[k].origin.Confirmed?
    requires d < |log| && log[d].Noticed? && log[d].id == log[k].origin.id
    ensures r < a < k && log[r].Read? && log[r].turn == log[k].turn && log[r].id == log[d].id
    ensures IsYes(log[a], log[k].turn, log[d].id, log[k].origin.candidate)
    ensures r < d < a || (d < r && log[r].now < log[d].now)
  {
    var q;
    q, r, a := ConfirmedCommand(log, threshold, check, k);
    NoticedLate(log, threshold, check, q, d);
    if d > a {
      SafeAt(log, threshold, check, d);
      FateIsFinal(log[..d], threshold, check, a, log[d].id);
    }
  }

  /** Do the times at which the manager was looked at never go back? */
  predicate Steady(log: seq<Entry>) {
    forall i, j | 0 <= i < j < |log| && Looked(log[i]) && Looked(log[j]) :: log[i].now <= log[j].now
  }

  predicate Looked(e: Entry) { e.Read? || e.Noticed? }

  /** With a clock that is not set back: what had expired before it was read never runs. */
  lemma ExpiredBeforeReadNeverRuns(log: seq<Entry>, threshold: real, check: Check, k: nat, d: nat)
    requires Safe(log, threshold, check) && Steady(log) && k < |log| && d < |log|
    requires log[d].Noticed? && log[k].Command? && log[k].origin.Confirmed? && log[k].origin.id == log[d].id
    ensures exists r, a :: 0 <= r < d < a < k && Reads(Some(log[r]), log[k].turn, log[d].id)
                           && IsYes(log[a], log[k].turn, log[d].id, log[k].origin.candidate)
  {
    var r, a := ExpiredCommand(log, threshold, check, k, d);
    if d < r { assert Looked(log[d]) && Looked(log[r]); }
    assert Reads(Some(log[r]), log[k].turn, log[d].id);
  }

  /** And it does what was asked about, with the operation the answers left: it is the candidate's
      activity, or stops the active one for a switch to it. A candidate that is mere talk never
      becomes a command. */
  lemma ConfirmedCommandTarget(log: seq<Entry>, threshold: real, check: Check, k: nat)
    requires Safe(log, threshold, check) && k < |log| && log[k].Command? && log[k].origin.Confirmed?
    ensures var candidate, plan := log[k].origin.candidate, log[k].plan;
      && plan.decision != AskConfirmation && Validated(plan, log[k].world, check)
      && ((candidate.requestedNew.Some? && candidate.requestedNew.value != "")
          || candidate.operation == Some(Start) || candidate.operation == Some(Continue) || candidate.operation == Some(Stop))
      && (|| (plan.activityType == candidate.activityType && plan.operation == candidate.operation
              && plan.capability == candidate.capability && plan.provider == candidate.provider)
          || StopsForSwitch(plan, ConfirmedPlan(candidate), log[k].context))
  {
    SafeAt(log, threshold, check, k);
    ConfirmedKeepsTarget(log[k].origin.candidate, log[k].world, check);
  }

  /** A command without a confirmation serves a plan that does not ask, so never comes from a
      language model's analysis below the threshold. */
  lemma DirectCommand(log: seq<Entry>, threshold: real, check: Check, k: nat)
    requires Safe(log, threshold, check) && k < |log| && log[k].Command? && log[k].origin.Direct?
    ensures log[k].origin.analysis.byLlm ==> log[k].origin.analysis.confidence >= threshold
    ensures log[k].plan.decision != AskConfirmation && Validated(log[k].plan, log[k].world, check)
    ensures Serves(log[k].plan, PlanFromAnalysis(log[k].context, log[k].origin.analysis, threshold, check), log[k].context)
  {
    SafeAt(log, threshold, check, k);
    var a := log[k].origin.analysis;
    if a.byLlm && a.confidence < threshold { LowConfidenceAsks(log[k].context, a, threshold, check); }
  }

  /** While something is going on, speaking of what might be or was never becomes a command, and
      a command that stops the current activity was asked for, unless it makes way for a switch. */
  lemma DirectCommandWhileOngoing(log: seq<Entry>, threshold: real, check: Check, k: nat)
    requires Safe(log, threshold, check) && k < |log| && log[k].Command? && log[k].origin.Direct?
    requires CurrentType(log[k].context).Some?
    ensures var a := log[k].origin.analysis;
      && !(a.ongoingDecision.None? && (a.hypothetical || a.pastReference))
      && (log[k].plan.decision == ContinueActivity && log[k].plan.operation == Some(Stop) ==>
            || AsksToStop(log[k].context, a, threshold, check)
            || StopsForSwitch(log[k].plan, PlanFromAnalysis(log[k].context, a, threshold, check), log[k].context))
  {
    var a := log[k].origin.analysis;
    SafeAt(log, threshold, check, k);
    StopsExactly(log[k].context, a, threshold, check);
    if a.ongoingDecision.None? && (a.hypothetical || a.pastReference) { MentionsAreTalk(log[k].context, a, threshold, check); }
  }

  lemma FinalStays(before: seq<Entry>, e: Entry, threshold: real, check: Check, id: nat)
    requires Safe(before, threshold, check) && Legal(before, e, threshold, check) && (FateOf(before, id).Gone? || FateOf(before, id).SaidYes?)
    ensures NextFate(FateOf(before, id), e, id) == FateOf(before, id)
  {
    if Unanswered(before).Some? { ReadStaysOpen(before, threshold, check); }
  }

  lemma FateStays(log: seq<Entry>, threshold: real, check: Check, id: nat)
    requires Safe(log, threshold, check) && log != []
    ensures var front := log[..|log| - 1];
      Safe(front, threshold, check)
      && (FateOf(front, id).Gone? || FateOf(front, id).SaidYes? ==> FateOf(log, id) == FateOf(front, id))
  {
    var front := log[..|log| - 1];
    if FateOf(front, id).Gone? || FateOf(front, id).SaidYes? {
      FinalStays(front, log[|log| - 1], threshold, check, id);
    }
  }

  /** A command for the target of a switch follows a stop of the same turn, which succeeded. */
  lemma SwitchFollowsStop(log: seq<Entry>, threshold: real, check: Check, k: nat) returns (s: nat, e: nat)
    requires Safe(log, threshold, check) && k < |log| && log[k].Command? && log[k].plan.decision == SwitchActivity
    ensures s < e < k && IsStop(log[s], log[k].turn) && log[e] == StopEnded(log[k].turn, true)
  {
    SafeAt(log, threshold, check, k);
    e :| 0 <= e < k && IsStopped(log[..k][e], log[k].turn);
    SafeAt(log, threshold, check, e);
    s :| 0 <= s < e && IsStop(log[..e][s], log[k].turn);
  }

  lemma {:induction false} FateIsFinal(log: seq<Entry>, threshold: real, check: Check, d: nat, id: nat)
    requires Safe(log, threshold, check) && d < |log| && Ends(log[d], id)
    ensures FateOf(log, id) == if log[d].Dropped? then Gone else SaidYes
  {
    if d < |log| - 1 {
      FateStays(log, threshold, check, id);
      FateIsFinal(log[..|log| - 1], threshold, check, d, id);
    }
  }

  /** What was refused, cancelled, superseded or failed never becomes a command, in any interleaving. */
  lemma DroppedNeverRuns(log: seq<Entry>, threshold: real, check: Check, d: nat, k: nat, id: nat)
    requires Safe(log, threshold, check) && d < |log| && k < |log| && log[d] == Dropped(id)
    ensures !(log[k].Command? && log[k].origin.Confirmed? && log[k].origin.id == id)
  {
    if log[k].Command? && log[k].origin.Confirmed? && log[k].origin.id == id {
      var q, r, a := ConfirmedCommand(log, threshold, check, k);
      FateIsFinal(log, threshold, check, d, id);
      FateIsFinal(log, threshold, check, a, id);
    }
  }

  /** One yes serves one turn, however turns interleave. */
  lemma YesServesOneTurn(log: seq<Entry>, threshold: real, check: Check, k: nat, l: nat)
    requires Safe(log, threshold, check) && k < |log| && l < |log|
    requires log[k].Command? && log[k].origin.Confirmed? && log[l].Command? && log[l].origin.Confirmed?
    requires log[k].origin.id == log[l].origin.id
    ensures log[k].turn == log[l].turn && log[k].origin.candidate == log[l].origin.candidate
  {
    var q, r, a := ConfirmedCommand(log, threshold, check, k);
    var q', r', b := ConfirmedCommand(log, threshold, check, l);
    if a < b { OneYes(log, threshold, check, a, b); }
    if b < a { OneYes(log, threshold, check, b, a); }
  }

  lemma OneYes(log: seq<Entry>, threshold: real, check: Check, a: nat, b: nat)
    requires Safe(log, threshold, check) && a < b < |log| && log[a].Affirmed? && log[b].Affirmed?
    ensures log[a].id != log[b].id
  {
    if log[a].id == log[b].id {
      FateIsFinal(log[..b], threshold, check, a, log[a].id);
      SafeAt(log, threshold, check, b);
      ReadStaysOpen(log[..b], threshold, check);
    }
  }

  // ---------- Carrying out ----------

  /** Does a plan that is not a switch reach its handler? */
  predicate RunsThrough(plan: Plan, input: Input, check: Check) {
    var e := ValidatePlan(plan, input.first, check);
    e.Accepted? && plan.decision != SwitchActivity && e.plan.capability.Some?
    && input.reachesHandler && ValidatePlan(e.plan, input.again, check).Accepted?
  }

  function CommandFor(turn: nat, origin: Origin, plan: Plan, input: Input, check: Check): Entry {
    Command(turn, origin, ValidatePlan(ValidatePlan(plan, input.first, check).plan, input.again, check).plan, input.context, input.again)
  }

  /** Is the stop that a switch begins with sent? `plan` is the validated plan to switch. */
  predicate StopRuns(plan: Plan, input: Input, check: Check) {
    input.context.active.Some? && input.stopReachesHandler
    && ValidatePlan(StopPlan(plan, input.context.active.value), input.stop, check).Accepted?
    && ValidatePlan(StopPlan(plan, input.context.active.value), input.stopAgain, check).Accepted?
  }

  /** And does the new activity reach its handler? */
  predicate SwitchRuns(plan: Plan, input: Input, check: Check) {
    StopRuns(plan, input, check) && input.stopSucceeds
    && input.reachesHandler && ValidatePlan(plan, input.again, check).Accepted?
  }

  /** What a switch writes to the log. */
  function SwitchEntries(turn: nat, origin: Origin, plan: Plan, input: Input, check: Check): seq<Entry> {
    (if StopRuns(plan, input, check) then
       [Command(turn, origin, ValidatePlan(StopPlan(plan, input.context.active.value), input.stopAgain, check).plan, input.context, input.stopAgain),
        StopEnded(turn, input.stopSucceeds)]
     else [])
    + if SwitchRuns(plan, input, check)
      then [Command(turn, origin, ValidatePlan(plan, input.again, check).plan, input.context, input.again)] else []
  }

  /** The whole of a switch, from the validation of its plan on. */
  predicate SwitchesThrough(plan: Plan, input: Input, check: Check) {
    ValidatePlan(plan, input.first, check).Accepted? && SwitchRuns(ValidatePlan(plan, input.first, check).plan, input, check)
  }

  // ---------- Growing logs ----------

  /** The plan of a turn is the one its origin stands for. */
  ghost predicate Intended(log: seq<Entry>, turn: nat, origin: Origin, plan: Plan, context: Context, threshold: real, check: Check) {
    plan.decision != AskConfirmation &&
    match origin
    case Direct(a) => plan == PlanFromAnalysis(context, a, threshold, check)
    case Confirmed(id, candidate) => AffirmedBy(log, turn, id, candidate) && plan == ConfirmedPlan(candidate)
  }

  /** What was affirmed stays affirmed. */
  lemma StaysIntended(log: seq<Entry>, e: Entry, turn: nat, origin: Origin, plan: Plan, context: Context, threshold: real, check: Check)
    requires Intended(log, turn, origin, plan, context, threshold, check)
    ensures Intended(log + [e], turn, origin, plan, context, threshold, check)
  {
    if origin.Confirmed? {
      var i :| 0 <= i < |log| && IsYes(log[i], turn, origin.id, origin.candidate);
      assert IsYes((log + [e])[i], turn, origin.id, origin.candidate);
    }
  }

  ghost predicate StagesIntended(log: seq<Entry>, stages: map<nat, Stage>, threshold: real, check: Check) {
    forall t | t in stages && stages[t].Ready? ::
      Intended(log, t, stages[t].origin, stages[t].plan, stages[t].input.context, threshold, check)
  }

  lemma AllStayIntended(log: seq<Entry>, e: Entry, stages: map<nat, Stage>, threshold: real, check: Check)
    requires StagesIntended(log, stages, threshold, check)
    ensures StagesIntended(log + [e], stages, threshold, check)
  {
    forall t | t in stages && stages[t].Ready?
      ensures Intended(log + [e], t, stages[t].origin, stages[t].plan, stages[t].input.context, threshold, check)
    {
      StaysIntended(log, e, t, stages[t].origin, stages[t].plan, stages[t].input.context, threshold, check);
    }
  }

  /** The plan of a turn may run, and so may the stop that a switch begins with. */
  lemma IntendedMayRun(log: seq<Entry>, turn: nat, origin: Origin, plan: Plan, q: Plan, context: Context, threshold: real, check: Check)
    requires Intended(log, turn, origin, plan, context, threshold, check)
    requires SameAction(q, plan) || StopsForSwitch(q, plan, context)
    ensures Entitled(log, turn, origin, q, context, threshold, check)
  {
  }

  /** The log tells of each confirmation what the manager knows. */
  ghost predicate Told(log: seq<Entry>, created: seq<nat>, current: Option<Confirmation>) {
    && (forall id :: FateOf(log, id) != NeverAsked <==> id in created)
    && (forall id :: FateOf(log, id).Open? <==> current.Some? && current.value.id == id)
    && (current.Some? ==> Tells(FateOf(log, current.value.id), current.value))
  }

  predicate Tells(f: Fate, p: Confirmation) {
    (f.Open? || f.Over?) && f.expiresAt == p.expiresAt && SameTarget(p.plan, f.candidate)
  }

  /** Turn `t` has read `p` and not answered; at most the expiry was noticed since. */
  ghost predicate ReadBy(log: seq<Entry>, t: nat, p: Confirmation, created: seq<nat>, current: Option<Confirmation>, timeout: int) {
    && Reads(Unanswered(log), t, p.id) && Unanswered(log).value.candidate == p.plan
    && Fits(p, created, timeout) && Tells(FateOf(log, p.id), p)
    && (current == Some(p) || (current.None? && FateOf(log, p.id).Over?))
  }

  // ---------- The route ----------

  class BehaviorRoute {
    const manager: PendingConfirmationManager
    const threshold: real
    const check: Check
    var stages: map<nat, Stage>
    var reading: Option<nat>             // the turn between reading and answering
    ghost var log: seq<Entry>

    ghost predicate Valid()
      reads this, manager
    {
      && manager.Valid() && Safe(log, threshold, check)
      && Told(log, manager.created, manager.current)
      && StagesIntended(log, stages, threshold, check)
      && ReadingRight()
    }

    ghost predicate ReadingRight()
      reads this, manager
    {
      && (forall t | t in stages && stages[t].Reading? :: reading == Some(t))
      && (reading.Some? ==>
            && reading.value in stages && stages[reading.value].Reading?
            && ReadBy(log, reading.value, stages[reading.value].pending, manager.created, manager.current, manager.timeout))
    }

    constructor (manager: PendingConfirmationManager, threshold: real, check: Check)
      requires manager.Valid() && manager.created == []
      ensures Valid() && log == [] && stages == map[] && reading.None?
      ensures this.manager == manager && this.threshold == threshold && this.check == check
    {
      this.manager, this.threshold, this.check := manager, threshold, check;
      stages, reading, log := map[], None, [];
    }

    ghost method Record(e: Entry)
      requires Safe(log, threshold, check) && Legal(log, e, threshold, check)
      requires StagesIntended(log, stages, threshold, check)
      modifies this`log
      ensures log == old(log) + [e] && Safe(log, threshold, check) && StagesIntended(log, stages, threshold, check)
      ensures forall id :: FateOf(log, id) == NextFate(FateOf(old(log), id), e, id)
      ensures Unanswered(log) == if e.Noticed? then Unanswered(old(log)) else if e.Read? then Some(e) else None
    {
      AllStayIntended(log, e, stages, threshold, check);
      log := log + [e];
      assert log[..|log| - 1] == old(log);
    }

    /** The answer of `turn` to `p`, once the manager has it; `before` was current until then. */
    ghost method RecordAnswer(turn: nat, p: Confirmation, before: Option<Confirmation>, e: Entry)
      requires Safe(log, threshold, check) && StagesIntended(log, stages, threshold, check)
      requires Told(log, manager.created, before) && ReadBy(log, turn, p, manager.created, before, manager.timeout)
      requires if manager.current.Some?
               then e == Revised(turn, p.id) && SameRecord(manager.current.value, p)
               else e == Affirmed(turn, p.id, p.plan) || e == Dropped(p.id)
      modifies this`log
      ensures log == old(log) + [e] && Safe(log, threshold, check) && StagesIntended(log, stages, threshold, check)
      ensures Told(log, manager.created, manager.current)
    {
      Record(e);
    }

    predicate SameRecord(q: Confirmation, p: Confirmation) {
      q.id == p.id && q.expiresAt == p.expiresAt && SameTarget(q.plan, p.plan)
    }

    // ---------- The confirmation manager, with the log ----------

    /** `pending_manager.current()`, by the route or by another thread, at any time. */
    method Look(now: int) returns (pending: Option<Confirmation>)
      requires Valid()
      modifies this`log, manager`current, manager`history
      ensures Valid() && pending == manager.current
      ensures pending == if old(manager.current).Some? && now < old(manager.current).value.expiresAt then old(manager.current) else None
      ensures pending.Some? ==> Fits(pending.value, manager.created, manager.timeout)
      ensures log == if old(manager.current).Some? && pending.None? then old(log) + [Noticed(old(manager.current).value.id, now)] else old(log)
    {
      var before := manager.current;
      pending := manager.Current(now);
      if before.Some? && pending.None? { Record(Noticed(before.value.id, now)); }
    }

    /** A final answer other than yes. */
    method Close(turn: nat, p: Confirmation, kind: Kind, event: nat)
      requires Valid() && Answers(turn, p) && FinalStatus(kind).Some? && kind != Affirmative
      modifies this`log, this`reading, this`stages, manager`current, manager`history
      ensures Valid() && old(log) <= log && manager.current.None? && reading.None?
      ensures stages == old(stages)[turn := Finished(AnswerNoted)]
    {
      ghost var before := manager.current;
      var finished := manager.ResolveItem(p, kind, event);
      RecordAnswer(turn, p, before, Dropped(p.id));
      Settle(turn, Finished(AnswerNoted));
    }

    /** Yes: the plan of the turn is the candidate, confirmed. */
    method Affirm(turn: nat, p: Confirmation, input: Input)
      requires Valid() && Answers(turn, p)
      modifies this`log, this`reading, this`stages, manager`current, manager`history
      ensures Valid() && log == old(log) + [Affirmed(turn, p.id, p.plan)] && manager.current.None? && reading.None?
      ensures stages == old(stages)[turn := Ready(Confirmed(p.id, p.plan), ConfirmedPlan(p.plan), input)]
    {
      ghost var before := manager.current;
      var resolved := manager.ResolveItem(p, Affirmative, input.event);
      RecordAnswer(turn, p, before, Affirmed(turn, p.id, p.plan));
      assert IsYes(log[|log| - 1], turn, p.id, p.plan);
      DecisionsAreKept(p.plan, input.first, check, input.resolution, input.revising);
      Settle(turn, Ready(Confirmed(p.id, p.plan), ConfirmedPlan(resolved.value.plan), input));
    }

    /** Any other answer: the candidate is revised, or given up after the last attempt. A stale
        one is pending again. */
    method Revise(turn: nat, p: Confirmation, input: Input)
      requires Valid() && Answers(turn, p)
      modifies this`log, this`reading, this`stages, manager`current, manager`history
      ensures Valid() && old(log) <= log && reading.None?
      ensures manager.current.Some? <==> p.attempts + 1 < p.maxAttempts
      ensures stages == old(stages)[turn := Finished(AnswerNoted)]
    {
      RevisedKeepsTarget(p.plan, input.resolution, input.revising, check);
      var plan := RevisedPlan(p.plan, input.resolution, input.revising, check);
      ghost var before := manager.current;
      var revised := manager.ReviseItem(p, input.resolution.kind, input.event, plan);
      RecordAnswer(turn, p, before, if revised.None? then Dropped(p.id) else Revised(turn, p.id));
      Settle(turn, Finished(AnswerNoted));
    }

    /** A new confirmation takes the place of one that another turn may have created meanwhile. */
    method Ask(plan: Plan, event: nat, newId: nat, createdAt: int)
      requires Valid() && reading.None? && plan.decision == AskConfirmation && newId !in manager.created
      modifies this`log, manager
      ensures Valid() && old(log) <= log
      ensures Asking(newId, plan, createdAt) && manager.created == old(manager.created) + [newId]
    {
      ghost var before := manager.current;
      var created := manager.CreateFor(newId, plan, event, createdAt);
      if before.Some? { Record(Dropped(before.value.id)); }
      Record(Asked(newId, plan, created.expiresAt));
    }

    ghost predicate Asking(id: nat, plan: Plan, createdAt: int)
      reads manager
    {
      manager.current.Some? && manager.current.value.id == id && manager.current.value.plan == plan
      && manager.current.value.expiresAt == createdAt + manager.timeout
    }

    // ---------- The steps of a turn ----------

    /** The start of a turn: is there a confirmation to answer? */
    method Begin(turn: nat, input: Input, now: int)
      requires Valid() && reading.None? && turn !in stages
      modifies this, manager`current, manager`history
      ensures Valid() && old(log) <= log
      ensures var p := old(manager.current);
        if p.Some? && now < p.value.expiresAt
        then reading == Some(turn) && stages == old(stages)[turn := Reading(p.value, input)] && manager.current == p
             && log == old(log) + [Read(turn, p.value.id, p.value.plan, now)]
        else reading.None? && stages == old(stages)[turn := Planning(input)] && manager.current.None?
    {
      var pending := Look(now);
      if pending.None? {
        Settle(turn, Planning(input));
      } else {
        Record(Read(turn, pending.value.id, pending.value.plan, now));
        stages, reading := stages[turn := Reading(pending.value, input)], Some(turn);
      }
    }

    /** Is this the turn that read `p`? */
    ghost predicate Answers(turn: nat, p: Confirmation)
      reads this
    {
      reading == Some(turn) && turn in stages && stages[turn].Reading? && stages[turn].pending == p
    }

    /** The answer to the confirmation that the turn has read. It is the same whether or not
        others noticed its expiry meanwhile. */
    method Answer(turn: nat)
      requires Valid() && reading == Some(turn)
      modifies this, manager`current, manager`history
      ensures Valid() && old(log) <= log && reading.None?
      ensures turn in old(stages) && old(stages)[turn].Reading?
      ensures var p, input := old(stages)[turn].pending, old(stages)[turn].input;
        stages == old(stages)[turn :=
          match input.resolution.kind
          case Affirmative => Ready(Confirmed(p.id, p.plan), ConfirmedPlan(p.plan), input)
          case NewRequest => Planning(input)
          case _ => Finished(AnswerNoted)]
        && (input.resolution.kind == Affirmative ==> log == old(log) + [Affirmed(turn, p.id, p.plan)])
    {
      var p, input := stages[turn].pending, stages[turn].input;
      match input.resolution.kind {
        case Affirmative => Affirm(turn, p, input);
        case Negative => Close(turn, p, Negative, input.event);
        case Cancel => Close(turn, p, Cancel, input.event);
        case NewRequest => Close(turn, p, NewRequest, input.event); Settle(turn, Planning(input));
        case Clarification => Revise(turn, p, input);
        case Ambiguous => Revise(turn, p, input);
      }
    }

    ghost predicate MaySettle(turn: nat, stage: Stage)
      reads this
    {
      && !stage.Reading? && (reading.None? || reading == Some(turn))
      && (stage.Ready? ==> Intended(log, turn, stage.origin, stage.plan, stage.input.context, threshold, check))
    }

    /** The turn goes on to another stage, with any reading answered. */
    method Settle(turn: nat, stage: Stage)
      requires manager.Valid() && Safe(log, threshold, check) && Told(log, manager.created, manager.current)
      requires StagesIntended(log, stages, threshold, check) && MaySettle(turn, stage)
      requires forall t | t in stages && stages[t].Reading? :: t == turn
      modifies this`stages, this`reading
      ensures Valid() && stages == old(stages)[turn := stage] && reading.None?
    {
      stages, reading := stages[turn := stage], None;
    }

    /** After analysis and planning: ask, or go on with the plan. */
    method Decide(turn: nat, newId: nat, createdAt: int)
      requires Valid() && reading.None? && turn in stages && stages[turn].Planning? && newId !in manager.created
      modifies this, manager
      ensures Valid() && old(log) <= log && reading.None?
      ensures turn in stages && stages == old(stages)[turn := stages[turn]]
      ensures manager.created == old(manager.created) || manager.created == old(manager.created) + [newId]
      ensures stages[turn].Ready? || stages[turn].Finished?
      ensures var input := old(stages)[turn].input;
        var plan := PlanFromAnalysis(input.context, input.analysis, threshold, check);
        if plan.decision == AskConfirmation
        then stages[turn] == Finished(Question(newId)) && Asking(newId, plan, createdAt)
        else stages[turn] == Ready(Direct(input.analysis), plan, input)
    {
      var input := stages[turn].input;
      var plan := PlanFromAnalysis(input.context, input.analysis, threshold, check);
      if plan.decision == AskConfirmation {
        Ask(plan, input.event, newId, createdAt);
        Settle(turn, Finished(Question(newId)));
      } else {
        Settle(turn, Ready(Direct(input.analysis), plan, input));
      }
    }

    /** The plan is validated, and carried out if it is accepted. */
    method CarryOut(turn: nat)
      requires Valid() && reading.None? && turn in stages && stages[turn].Ready?
      modifies this
      ensures Valid() && old(log) <= log && reading.None?
      ensures turn in stages && stages == old(stages)[turn := stages[turn]] && stages[turn].Finished?
      ensures stages[turn].reply.NotExecuted? || stages[turn].reply.HandedOver? || stages[turn].reply.Talk?
      ensures forall i | |old(log)| <= i < |log| ::
                log[i] == StopEnded(turn, old(stages)[turn].input.stopSucceeds)
                || (log[i].Command? && log[i].turn == turn && log[i].origin == old(stages)[turn].origin)
      ensures ValidatePlan(old(stages)[turn].plan, old(stages)[turn].input.first, check).Rejected? ==> log == old(log)
      ensures var plan, input := old(stages)[turn].plan, old(stages)[turn].input;
        && (plan.decision != SwitchActivity ==>
              (stages[turn].reply == HandedOver <==> RunsThrough(plan, input, check))
              && (!RunsThrough(plan, input, check) ==> log == old(log)))
        && (stages[turn].reply == Talk <==>
              plan.decision != SwitchActivity && ValidatePlan(plan, input.first, check).Accepted? && plan.capability.None?)
        && (RunsThrough(plan, input, check) ==> log == old(log) + [CommandFor(turn, old(stages)[turn].origin, plan, input, check)])
        && (plan.decision == SwitchActivity ==>
              (stages[turn].reply == HandedOver <==> SwitchesThrough(plan, input, check))
              && (ValidatePlan(plan, input.first, check).Accepted? ==>
                    log == old(log) + SwitchEntries(turn, old(stages)[turn].origin, ValidatePlan(plan, input.first, check).plan, input, check)))
    {
      var r := Execute(turn, stages[turn].origin, stages[turn].plan, stages[turn].input);
      Settle(turn, Finished(r));
    }

    /** The part of `_route_behavior` after the decision not to ask. */
    method Execute(turn: nat, origin: Origin, plan: Plan, input: Input) returns (r: Reply)
      requires Valid() && reading.None? && turn in stages && stages[turn] == Ready(origin, plan, input)
      modifies this`log
      ensures Valid() && old(log) <= log
      ensures forall i | |old(log)| <= i < |log| ::
                log[i] == StopEnded(turn, input.stopSucceeds) || (log[i].Command? && log[i].turn == turn && log[i].origin == origin)
      ensures ValidatePlan(plan, input.first, check).Rejected? ==> log == old(log) && r == NotExecuted
      ensures plan.decision != SwitchActivity ==> (r == HandedOver <==> RunsThrough(plan, input, check))
      ensures plan.decision != SwitchActivity && !RunsThrough(plan, input, check) ==> log == old(log)
      ensures r == Talk <==>
                plan.decision != SwitchActivity && ValidatePlan(plan, input.first, check).Accepted? && plan.capability.None?
      ensures RunsThrough(plan, input, check) ==> log == old(log) + [CommandFor(turn, origin, plan, input, check)]
      ensures plan.decision == SwitchActivity ==> (r == HandedOver <==> SwitchesThrough(plan, input, check))
      ensures plan.decision == SwitchActivity && ValidatePlan(plan, input.first, check).Accepted? ==>
                log == old(log) + SwitchEntries(turn, origin, ValidatePlan(plan, input.first, check).plan, input, check)
      ensures r.NotExecuted? || r.HandedOver? || r.Talk?
    {
      ValidatedIsSame(plan, input.first, check);
      var e := ValidatePlan(plan, input.first, check);
      if e.Rejected? { return NotExecuted; }
      IntendedMayRun(log, turn, origin, plan, e.plan, input.context, threshold, check);
      var called;
      if e.plan.decision == SwitchActivity {
        called := RouteSwitch(turn, origin, plan, e.plan, input);
      } else if e.plan.capability.Some? {
        called := RoutePlugin(turn, origin, e.plan, input.context, input.again, input.reachesHandler);
      } else {
        return Talk;
      }
      r := if called then HandedOver else NotExecuted;
    }

    /** `_route_plugin_user_input` with a plan: validated once more, immediately before the handler. */
    method RoutePlugin(turn: nat, origin: Origin, plan: Plan, context: Context, w: World, reachesHandler: bool)
      returns (called: bool)
      requires Valid() && reading.None? && Entitled(log, turn, origin, plan, context, threshold, check)
      requires plan.capability.Some? || plan.decision == SwitchActivity
      requires plan.decision == SwitchActivity ==> StoppedBy(log, turn)
      modifies this`log
      ensures Valid()
      ensures called <==> reachesHandler && ValidatePlan(plan, w, check).Accepted?
      ensures log == if called then old(log) + [Command(turn, origin, ValidatePlan(plan, w, check).plan, context, w)] else old(log)
    {
      ValidatedIsSame(plan, w, check);
      var e := ValidatePlan(plan, w, check);
      if e.Rejected? || !reachesHandler { return false; }
      Record(Command(turn, origin, e.plan, context, w));
      called := true;
    }

    /** `_route_activity_switch`: the new activity only after the active one was stopped. `whole`
        is the turn's plan, `plan` the same after validation. */
    method RouteSwitch(turn: nat, origin: Origin, whole: Plan, plan: Plan, input: Input) returns (called: bool)
      requires Valid() && reading.None? && turn in stages && stages[turn] == Ready(origin, whole, input)
      requires SameAction(plan, whole) && plan.decision == SwitchActivity
      modifies this`log
      ensures Valid() && log == old(log) + SwitchEntries(turn, origin, plan, input, check)
      ensures called <==> SwitchRuns(plan, input, check)
    {
      called := false;
      if input.context.active.None? { return; }
      var stop := StopPlan(plan, input.context.active.value);
      if ValidatePlan(stop, input.stop, check).Rejected? { return; }
      var stopped := RouteStop(turn, origin, whole, stop, input);
      if !stopped { return; }
      called := RouteTarget(turn, origin, whole, plan, input);
    }

    /** The stop of the active activity, and whether it succeeded. */
    method RouteStop(turn: nat, origin: Origin, whole: Plan, stop: Plan, input: Input) returns (stopped: bool)
      requires Valid() && reading.None? && turn in stages && stages[turn] == Ready(origin, whole, input)
      requires StopsForSwitch(stop, whole, input.context) && stop.capability.Some?
      modifies this`log
      ensures Valid()
      ensures var sent := input.stopReachesHandler && ValidatePlan(stop, input.stopAgain, check).Accepted?;
        && (stopped <==> sent && input.stopSucceeds)
        && log == old(log) + (if sent then [Command(turn, origin, ValidatePlan(stop, input.stopAgain, check).plan, input.context, input.stopAgain),
                                            StopEnded(turn, input.stopSucceeds)] else [])
    {
      IntendedMayRun(log, turn, origin, whole, stop, input.context, threshold, check);
      ValidatedIsSame(stop, input.stopAgain, check);
      var called := RoutePlugin(turn, origin, stop, input.context, input.stopAgain, input.stopReachesHandler);
      if !called { return false; }
      NoteStop(turn, input.stopSucceeds);
      stopped := input.stopSucceeds;
    }

    ghost method NoteStop(turn: nat, succeeded: bool)
      requires Valid() && reading.None? && log != [] && IsStop(log[|log| - 1], turn)
      modifies this`log
      ensures Valid() && log == old(log) + [StopEnded(turn, succeeded)]
    {
      Record(StopEnded(turn, succeeded));
    }

    method RouteTarget(turn: nat, origin: Origin, whole: Plan, plan: Plan, input: Input) returns (called: bool)
      requires Valid() && reading.None? && turn in stages && stages[turn] == Ready(origin, whole, input)
      requires SameAction(plan, whole) && plan.decision == SwitchActivity
      requires log != [] && log[|log| - 1] == StopEnded(turn, true)
      modifies this`log
      ensures Valid()
      ensures called <==> input.reachesHandler && ValidatePlan(plan, input.again, check).Accepted?
      ensures log == if called then old(log) + [Command(turn, origin, ValidatePlan(plan, input.again, check).plan, input.context, input.again)]
                     else old(log)
    {
      assert IsStopped(log[|log| - 1], turn);
      IntendedMayRun(log, turn, origin, whole, plan, input.context, threshold, check);
      called := RoutePlugin(turn, origin, plan, input.context, input.again, input.reachesHandler);
    }

    /** One input from beginning to end when nothing comes between. */
    method RouteInput(turn: nat, input: Input, now: int, newId: nat, createdAt: int) returns (r: Reply)
      requires Valid() && reading.None? && turn !in stages && newId !in manager.created
      modifies this, manager
      ensures Valid() && old(log) <= log && reading.None?
      ensures r == AnswerNoted ==> input.resolution.kind != Affirmative && input.resolution.kind != NewRequest
    {
      StartTurn(turn, input, now);
      if stages[turn].Finished? { return stages[turn].reply; }
      if stages[turn].Planning? { Decide(turn, newId, createdAt); }
      if stages[turn].Ready? { CarryOut(turn); }
      r := stages[turn].reply;
    }

    /** Its part up to the first await. */
    method StartTurn(turn: nat, input: Input, now: int)
      requires Valid() && reading.None? && turn !in stages
      modifies this, manager`current, manager`history
      ensures Valid() && old(log) <= log && reading.None? && turn in stages && !stages[turn].Reading?
      ensures stages[turn].Finished? ==>
                stages[turn].reply == AnswerNoted && input.resolution.kind != Affirmative && input.resolution.kind != NewRequest
    {
      Begin(turn, input, now);
      if reading.Some? { Answer(turn); }
    }
  }

  // ---------- Every interleaving ----------

  datatype Event =
    | Begins(turn: nat, input: Input, now: int)
    | AnswersNow(turn: nat)
    | Decides(turn: nat, newId: nat, createdAt: int)
    | CarriesOut(turn: nat)
    | Looks(now: int)

  /** Can this happen now? A turn that has read goes on to its answer before any other turn does
      anything; other threads may look at the confirmation at any time. */
  predicate Possible(route: BehaviorRoute, e: Event)
    reads route`stages, route`reading
  {
    match e
    case Begins(turn, _, _) => route.reading.None? && turn !in route.stages
    case AnswersNow(turn) => route.reading == Some(turn)
    case Decides(turn, _, _) => route.reading.None? && turn in route.stages && route.stages[turn].Planning?
    case CarriesOut(turn) => route.reading.None? && turn in route.stages && route.stages[turn].Ready?
    case Looks(_) => true
  }

  /** Any number of turns, whatever is said, planned, registered or available, with steps in any
      order and expiries noticed at any time, also between reading and answering: the log stays
      safe, so the theorems above hold of it. */
  method Interleave(route: BehaviorRoute, events: seq<Event>)
    requires route.Valid()
    requires forall i, j | 0 <= i < j < |events| && events[i].Decides? && events[j].Decides? :: events[i].newId != events[j].newId
    requires forall i | 0 <= i < |events| && events[i].Decides? :: events[i].newId !in route.manager.created
    modifies route, route.manager
    ensures route.Valid() && Safe(route.log, route.threshold, route.check) && old(route.log) <= route.log
  {
    for i := 0 to |events|
      invariant route.Valid() && old(route.log) <= route.log
      invariant forall j | i <= j < |events| && events[j].Decides? :: events[j].newId !in route.manager.created
    {
      if Possible(route, events[i]) {
        match events[i] {
          case Begins(turn, input, now) => route.Begin(turn, input, now);
          case AnswersNow(turn) => route.Answer(turn);
          case Decides(turn, newId, createdAt) => route.Decide(turn, newId, createdAt);
          case CarriesOut(turn) => route.CarryOut(turn);
          case Looks(now) => var pending := route.Look(now);
        }
      }
    }
  }

  // ---------- Expired between reading and answering ----------

  predicate AllBefore(times: seq<int>, expiresAt: int) { forall i | 0 <= i < |times| :: times[i] < expiresAt }

  /** What is noticed when `p` is current and others look at these times. */
  function Notices(p: Confirmation, times: seq<int>): (r: seq<Entry>)
    ensures r == [] <==> AllBefore(times, p.expiresAt)
    ensures r != [] ==> |r| == 1 && r[0].Noticed? && r[0].id == p.id
  {
    if times == [] then []
    else
      var before, now := Notices(p, times[..|times| - 1]), times[|times| - 1];
      assert AllBefore(times, p.expiresAt) <==> AllBefore(times[..|times| - 1], p.expiresAt) && now < p.expiresAt by {
        assert times == times[..|times| - 1] + [now];
      }
      if before != [] || now < p.expiresAt then before else [Noticed(p.id, now)]
  }

  lemma NoticesNext(p: Confirmation, times: seq<int>, i: nat)
    requires i < |times|
    ensures Notices(p, times[..i + 1]) ==
            if Notices(p, times[..i]) == [] && times[i] >= p.expiresAt then [Noticed(p.id, times[i])] else Notices(p, times[..i])
  {
    assert times[..i + 1][..i] == times[..i];
  }

  method LookAt(route: BehaviorRoute, p: Confirmation, times: seq<int>)
    requires route.Valid() && route.manager.current == Some(p)
    modifies route`log, route.manager`current, route.manager`history
    ensures route.Valid() && route.log == old(route.log) + Notices(p, times)
  {
    for i := 0 to |times|
      invariant route.Valid() && route.log == old(route.log) + Notices(p, times[..i])
      invariant route.manager.current == if Notices(p, times[..i]) == [] then Some(p) else None
    {
      NoticesNext(p, times, i);
      var pending := route.Look(times[i]);
    }
    assert times[..|times|] == times;
  }

  /** Was the expiry of `id` noticed after the first `from` entries, and yet a command followed? */
  ghost predicate NoticedThenRun(log: seq<Entry>, from: nat, id: nat) {
    exists d, k :: from <= d < k < |log| && IsNotice(log[d], id) && RunsConfirmed(log[k], id)
  }

  predicate IsNotice(e: Entry, id: nat) { e.Noticed? && e.id == id }

  predicate RunsConfirmed(e: Entry, id: nat) { e.Command? && e.origin.Confirmed? && e.origin.id == id }

  lemma NoticedThenRunExactly(before: seq<Entry>, read: Entry, noticed: seq<Entry>, yes: Entry, command: Entry, id: nat)
    requires !read.Noticed? && !yes.Noticed? && RunsConfirmed(command, id)
    requires forall e | e in noticed :: IsNotice(e, id)
    ensures NoticedThenRun(before + [read] + noticed + [yes] + [command], |before|, id) <==> noticed != []
    ensures var log := before + [read] + noticed + [yes] + [command]; before < log && log[|log| - 1] == command
  {
    var log := before + [read] + noticed + [yes] + [command];
    assert log[|before|] == read && log[|log| - 2] == yes && log[|log| - 1] == command;
    if noticed != [] {
      assert log[|before| + 1] == noticed[0];
    }
  }

  /** Whoever looks at which times between the reading and the yes, the candidate runs; so it runs
      after its expiry was noticed exactly when somebody looked at or after the expiry. */
  method YesAfterLooks(route: BehaviorRoute, turn: nat, input: Input, now: int, times: seq<int>)
    requires route.Valid() && route.reading.None? && turn !in route.stages && input.resolution.kind == Affirmative
    requires route.manager.current.Some? && now < route.manager.current.value.expiresAt
    requires RunsThrough(ConfirmedPlan(route.manager.current.value.plan), input, route.check)
    modifies route, route.manager
    ensures route.Valid() && old(route.log) < route.log
    ensures RunsConfirmed(route.log[|route.log| - 1], old(route.manager.current).value.id)
    ensures NoticedThenRun(route.log, |old(route.log)|, old(route.manager.current).value.id)
            <==> !AllBefore(times, old(route.manager.current).value.expiresAt)
  {
    var p := route.manager.current.value;
    ghost var before := route.log;
    ReadAffirmRun(route, turn, input, now, times, p);
    NoticedThenRunExactly(before, Read(turn, p.id, p.plan, now), Notices(p, times), Affirmed(turn, p.id, p.plan),
      CommandFor(turn, Confirmed(p.id, p.plan), ConfirmedPlan(p.plan), input, route.check), p.id);
  }

  method ReadAndAffirm(route: BehaviorRoute, turn: nat, input: Input, now: int, times: seq<int>, p: Confirmation)
    requires route.Valid() && route.reading.None? && turn !in route.stages && input.resolution.kind == Affirmative
    requires route.manager.current == Some(p) && now < p.expiresAt
    modifies route, route.manager`current, route.manager`history
    ensures route.Valid() && route.reading.None?
    ensures route.log == old(route.log) + [Read(turn, p.id, p.plan, now)] + Notices(p, times) + [Affirmed(turn, p.id, p.plan)]
    ensures turn in route.stages && route.stages[turn] == Ready(Confirmed(p.id, p.plan), ConfirmedPlan(p.plan), input)
  {
    route.Begin(turn, input, now);
    LookAt(route, p, times);
    route.Answer(turn);
  }

  method ReadAffirmRun(route: BehaviorRoute, turn: nat, input: Input, now: int, times: seq<int>, p: Confirmation)
    requires route.Valid() && route.reading.None? && turn !in route.stages && input.resolution.kind == Affirmative
    requires route.manager.current == Some(p) && now < p.expiresAt && RunsThrough(ConfirmedPlan(p.plan), input, route.check)
    modifies route, route.manager`current, route.manager`history
    ensures route.Valid()
    ensures route.log == old(route.log) + [Read(turn, p.id, p.plan, now)] + Notices(p, times) + [Affirmed(turn, p.id, p.plan)]
                         + [CommandFor(turn, Confirmed(p.id, p.plan), ConfirmedPlan(p.plan), input, route.check)]
  {
    ReadAndAffirm(route, turn, input, now, times, p);
    route.CarryOut(turn);
  }

  // ---------- A concrete case ----------

  const GAME := Definition("game", "play", "games", {Start}, Obj(map[]), "1")
  const WORLD := World(None, (capability: string, provider: Option<string>) => true)
  const UNSURE := Analysis(Some("game"), Some(Start), map[], false, false, false, false, 0.3, true, None, None)

  function Says(kind: Kind): Input {
    Input(0, Resolution(kind, None, map[]), UNSURE, Context([GAME], None, None, None), None, WORLD, WORLD, WORLD, WORLD, true, true, true)
  }

  const PASSES: Check := (c: map<string, Value>, schema: Schema) => Verdict(true, c)
  const QUESTION := Plan(AskConfirmation, "game", Some("play"), Some("games"), Some(Start), map[], Some("1"), false, 0.3, None, None)

  lemma UnsurePlan(kind: Kind)
    ensures PlanFromAnalysis(Says(kind).context, UNSURE, 0.5, PASSES) == QUESTION
  {
    assert Lookup([GAME], "game") == Some(GAME);
  }

  lemma QuestionRuns()
    ensures RunsThrough(ConfirmedPlan(QUESTION), Says(Affirmative), PASSES)
  {
  }

  method AskedAtZero() returns (route: BehaviorRoute)
    ensures fresh(route) && fresh(route.manager) && route.Valid() && route.reading.None? && route.check == PASSES
    ensures route.Asking(7, QUESTION, 0) && route.manager.timeout == 10 && 1 !in route.stages
  {
    var manager := new PendingConfirmationManager(10, 3);
    route := new BehaviorRoute(manager, 0.5, PASSES);
    route.Begin(0, Says(NewRequest), 0);
    UnsurePlan(NewRequest);
    route.Decide(0, 7, 0);
  }

  /** A timeout of 10: asked at 0 and read at 9; somebody looks at 10; yes; the handler is called. */
  method ExpiredYetRun() returns (route: BehaviorRoute)
    ensures fresh(route) && fresh(route.manager) && route.Valid()
    ensures NoticedThenRun(route.log, 0, 7)
  {
    route := AskedAtZero();
    QuestionRuns();
    ghost var from := |route.log|;
    var times := [10];
    assert times[0] == 10;
    assert !AllBefore(times, route.manager.current.value.expiresAt);
    YesAfterLooks(route, 1, Says(Affirmative), 9, times);
    LaterIsEnough(route.log, from, 7);
  }

  lemma LaterIsEnough(log: seq<Entry>, from: nat, id: nat)
    requires NoticedThenRun(log, from, id)
    ensures NoticedThenRun(log, 0, id)
  {
  }
}
