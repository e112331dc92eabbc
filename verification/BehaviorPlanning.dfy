/**
 From an analysed input to an activity plan, and the check of a plan before it runs. The
 analysis itself (a language model or patterns) is an arbitrary input. The constraint
 validator is a parameter, `check`, assumed to answer as its own module proves it does.
*/
module BehaviorPlanning {
  import opened Options
  import opened ConstraintSchema
  import opened ConstraintTheorems
  import opened ConstraintValidator

  datatype Decision = StartActivity | ContinueActivity | Conversation | AskConfirmation | Wait | NoAction | SwitchActivity
  datatype Operation = Start | Continue | Stop | Explain | Discuss
  datatype OngoingDecision =
    | ContinueCurrent | StopCurrent | PauseCurrent | ResumeCurrent | TalkAboutCurrent | TalkUnrelated
    | StartOther | SwitchTo | AskFirst | DoNothing

  datatype Definition = Definition(
    activityType: string, capability: string, provider: string, operations: set<Operation>,
    schema: Schema, schemaVersion: string)

  datatype Analysis = Analysis(
    candidate: Option<string>, operation: Option<Operation>, constraints: map<string, Value>,
    negated: bool, hypothetical: bool, pastReference: bool, knowledgeQuestion: bool,
    confidence: real, byLlm: bool, ongoingDecision: Option<OngoingDecision>, schemaVersion: Option<string>)

  datatype Plan = Plan(
    decision: Decision, activityType: string, capability: Option<string>, provider: Option<string>,
    operation: Option<Operation>, constraints: map<string, Value>, schemaVersion: Option<string>,
    constraintsInvalid: bool, confidence: real, requestedNew: Option<string>, ongoingDecision: Option<OngoingDecision>)

  datatype Ongoing = Ongoing(activityType: string, constraints: map<string, Value>)
  datatype Context = Context(definitions: seq<Definition>, active: Option<Definition>,
                             ongoingType: Option<string>, ongoing: Option<Ongoing>)

  // ---------- The constraint validator ----------

  datatype Verdict = Verdict(valid: bool, normalized: map<string, Value>)
  type Check = (map<string, Value>, Schema) -> Verdict

  function Adapted(schema: Schema): Schema { Adapt(schema).0 }

  /** `check` answers exactly what `ConstraintValidator.Validate` is proved to return. */
  ghost predicate Faithful(check: Check) {
    forall c, schema :: (check(c, schema).valid <==> Clean(Obj(c), Adapted(schema)))
                        && Obj(check(c, schema).normalized) == Fill(Obj(c), Adapted(schema))
  }

  /** There is only one faithful answer, and the validator's method gives it. */
  method CheckedAsProved(check: Check, c: map<string, Value>, schema: Schema) returns (result: ConstraintValidationResult)
    requires Faithful(check)
    ensures check(c, schema) == Verdict(result.valid, result.normalizedConstraints)
  {
    result := Validate(c, schema);
  }

  // ---------- Planning ----------

  function Lookup(definitions: seq<Definition>, activityType: string): Option<Definition> {
    if definitions == [] then None
    else if definitions[0].activityType == activityType then Some(definitions[0])
    else Lookup(definitions[1..], activityType)
  }

  /** `_resolve_definition`. */
  function Resolve(context: Context, activityType: Option<string>): Option<Definition> {
    if activityType.None? then None
    else
      var found := Lookup(context.definitions, activityType.value);
      if found.None? && context.active.Some? && context.active.value.activityType == activityType.value
      then context.active else found
  }

  function CurrentType(context: Context): Option<string> {
    if context.ongoing.Some? then Some(context.ongoing.value.activityType)
    else if context.ongoingType.Some? then context.ongoingType
    else if context.active.Some? then Some(context.active.value.activityType)
    else None
  }

  /** The decision of `OngoingInputInterpreter.interpret` when something is going on. */
  function Interpret(current: string, a: Analysis, threshold: real): OngoingDecision {
    if a.confidence < threshold then AskFirst
    else if a.ongoingDecision.Some? then a.ongoingDecision.value
    else if a.hypothetical || a.pastReference then TalkAboutCurrent
    else if a.negated then (if a.candidate.None? || a.candidate == Some(current) then ContinueCurrent else TalkUnrelated)
    else if a.knowledgeQuestion then TalkAboutCurrent
    else if a.candidate == Some(current) then
      if a.operation == Some(Stop) then StopCurrent
      else if a.operation == Some(Explain) || a.operation == Some(Discuss) then TalkAboutCurrent
      else ContinueCurrent
    else if a.candidate.Some? then StartOther
    else if a.operation == Some(Explain) || a.operation == Some(Discuss) then TalkUnrelated
    else AskFirst
  }

  /** `_definition` of the transition policy: the active definition comes first. */
  function PolicyDefinition(context: Context, activityType: Option<string>): Option<Definition> {
    if activityType.None? then None
    else if context.active.Some? && context.active.value.activityType == activityType.value then context.active
    else Lookup(context.definitions, activityType.value)
  }

  function CapabilityOf(d: Option<Definition>): Option<string> { if d.Some? then Some(d.value.capability) else None }
  function ProviderOf(d: Option<Definition>): Option<string> { if d.Some? then Some(d.value.provider) else None }
  function TypeOr(d: Option<Definition>, otherwise: string): string { if d.Some? then d.value.activityType else otherwise }

  function InheritedConstraints(context: Context, a: Analysis): map<string, Value> {
    if a.constraints != map[] then a.constraints
    else if context.ongoing.Some? then context.ongoing.value.constraints
    else map[]
  }

  /** `OngoingActivityTransitionPolicy.plan`. */
  function TransitionPlan(context: Context, a: Analysis, currentType: string, decision: OngoingDecision): Plan {
    var current := PolicyDefinition(context, Some(currentType));
    var requested := if a.candidate.Some? && a.candidate.value != currentType then a.candidate else None;
    var target := PolicyDefinition(context, requested);
    var talk := Plan(Conversation, "conversation", None, None, Some(Discuss), a.constraints, None, false, a.confidence,
                     requested, Some(decision));
    match decision
    case ContinueCurrent => OfCurrent(context, a, current, Continue, decision)
    case ResumeCurrent => OfCurrent(context, a, current, Continue, decision)
    case PauseCurrent => OfCurrent(context, a, current, Continue, decision)
    case StopCurrent => OfCurrent(context, a, current, Stop, decision)
    case SwitchTo =>
      if target.None? then talk
      else Plan(SwitchActivity, target.value.activityType, CapabilityOf(target), ProviderOf(target), Some(Start),
                a.constraints, None, false, a.confidence, Some(target.value.activityType), Some(decision))
    case StartOther =>
      Plan(AskConfirmation, TypeOr(target, "conversation"), CapabilityOf(target), ProviderOf(target), Some(Start),
           a.constraints, None, false, a.confidence, requested, Some(decision))
    case AskFirst =>
      Plan(AskConfirmation, TypeOr(current, "conversation"), CapabilityOf(current), ProviderOf(current), a.operation,
           InheritedConstraints(context, a), None, false, a.confidence, None, Some(decision))
    case DoNothing => talk.(decision := NoAction)
    case _ => talk
  }

  function OfCurrent(context: Context, a: Analysis, current: Option<Definition>, op: Operation, decision: OngoingDecision): Plan {
    Plan(ContinueActivity, TypeOr(current, "unknown"), CapabilityOf(current), ProviderOf(current), Some(op),
         InheritedConstraints(context, a), None, false, a.confidence, None, Some(decision))
  }

  /** `BehaviorPlanner.plan_from_analysis`. */
  function PlanFromAnalysis(context: Context, raw: Analysis, threshold: real, check: Check): Plan {
    var d := Resolve(context, raw.candidate);
    var verdict := if d.Some? then check(raw.constraints, d.value.schema) else Verdict(true, raw.constraints);
    if d.Some? && !verdict.valid then
      Plan(AskConfirmation, d.value.activityType, CapabilityOf(d), ProviderOf(d), raw.operation, verdict.normalized,
           Some(d.value.schemaVersion), true, raw.confidence, None, None)
    else
      var a := if d.Some? then raw.(constraints := verdict.normalized, schemaVersion := Some(d.value.schemaVersion)) else raw;
      if CurrentType(context).Some? then
        TransitionPlan(context, a, CurrentType(context).value, Interpret(CurrentType(context).value, a, threshold))
      else if a.byLlm && a.confidence < threshold then
        Plan(AskConfirmation, TypeOr(d, if a.candidate.Some? && a.candidate.value != "" then a.candidate.value else "conversation"),
             CapabilityOf(d), ProviderOf(d), a.operation, a.constraints, a.schemaVersion, false, a.confidence, None, None)
      else if d.Some? && a.operation.Some? then
        Plan(if a.operation.value == Start then StartActivity else ContinueActivity, d.value.activityType,
             CapabilityOf(d), ProviderOf(d), a.operation, check(a.constraints, d.value.schema).normalized,
             Some(d.value.schemaVersion), false, a.confidence, None, None)
      else
        Plan(Conversation, "conversation", None, None, a.operation, a.constraints, None, false, a.confidence, None, None)
  }

  // ---------- Validation before execution ----------

  /** What the validator asks at one moment: the registered definitions, if it was given any,
      and whether a capability of a provider is available. */
  datatype World = World(definitions: Option<seq<Definition>>, available: (string, Option<string>) -> bool)

  datatype Reason = CapabilityMissing | OperationMissing | DefinitionNotFound | VersionChanged | ConstraintsInvalid | CapabilityUnavailable
  datatype Evaluation = Accepted(plan: Plan) | Rejected(plan: Plan, reason: Reason)

  predicate Matches(d: Definition, p: Plan) {
    d.activityType == p.activityType && Some(d.capability) == p.capability && Some(d.provider) == p.provider
  }

  function FindMatch(definitions: seq<Definition>, p: Plan): Option<Definition> {
    if definitions == [] then None
    else if Matches(definitions[0], p) then Some(definitions[0])
    else FindMatch(definitions[1..], p)
  }

  /** `ActivityPlanValidator.validate`. */
  function ValidatePlan(p: Plan, w: World, check: Check): Evaluation {
    if p.capability.None? then
      if p.decision == StartActivity then Rejected(p, CapabilityMissing) else Accepted(p)
    else if p.operation.None? then Rejected(p, OperationMissing)
    else if w.definitions.None? then Availability(p, w)
    else
      var d := FindMatch(w.definitions.value, p);
      if d.None? || p.operation.value !in d.value.operations then Rejected(p, DefinitionNotFound)
      else if p.schemaVersion.Some? && p.schemaVersion.value != d.value.schemaVersion then Rejected(p, VersionChanged)
      else
        var verdict := check(p.constraints, d.value.schema);
        if !verdict.valid then Rejected(p, ConstraintsInvalid)
        else Availability(p.(constraints := verdict.normalized, constraintsInvalid := false,
                             schemaVersion := Some(d.value.schemaVersion)), w)
  }

  function Availability(p: Plan, w: World): Evaluation
    requires p.capability.Some?
  {
    if w.available(p.capability.value, p.provider) then Accepted(p) else Rejected(p, CapabilityUnavailable)
  }

  /** `validate_constraints`: here the capability does not have to match. */
  function FindProvider(definitions: seq<Definition>, p: Plan): Option<Definition> {
    if definitions == [] then None
    else if definitions[0].activityType == p.activityType && Some(definitions[0].provider) == p.provider then Some(definitions[0])
    else FindProvider(definitions[1..], p)
  }

  // ---------- Confirmation ----------

  /** `_confirmed_plan`. */
  function ConfirmedPlan(p: Plan): Plan {
    var decision :=
      if p.requestedNew.Some? && p.requestedNew.value != "" then SwitchActivity
      else if p.operation == Some(Start) then StartActivity
      else if p.operation == Some(Continue) || p.operation == Some(Stop) then ContinueActivity
      else Conversation;
    if decision == Conversation then
      p.(decision := decision, activityType := "conversation", capability := None, provider := None, confidence := 1.0)
    else p.(decision := decision, confidence := 1.0)
  }

  datatype Kind = Affirmative | Negative | Clarification | NewRequest | Cancel | Ambiguous
  datatype Resolution = Resolution(kind: Kind, operation: Option<Operation>, updates: map<string, Value>)

  /** The candidate after a non-final answer, as `revise` rebuilds it. */
  function RevisedPlan(p: Plan, r: Resolution, definitions: Option<seq<Definition>>, check: Check): Plan {
    if r.kind != Clarification then p
    else
      var operation := if r.operation.Some? then r.operation else p.operation;
      var constraints := p.constraints + r.updates;
      var d := if definitions.Some? then FindProvider(definitions.value, p) else None;
      if d.None? then p.(operation := operation, constraints := constraints, constraintsInvalid := false)
      else
        var verdict := check(constraints, d.value.schema);
        if verdict.valid then
          p.(operation := operation, constraints := verdict.normalized, constraintsInvalid := false,
             schemaVersion := Some(d.value.schemaVersion))
        else p.(constraintsInvalid := true)
  }

  // ---------- Theorems ----------

  /** When a plan asks first: exactly when the constraints of a known activity are invalid, or
      the confidence is too low (of any evaluator while something is going on, of a language
      model otherwise), or the input wants another activity or stays unclear. */
  lemma AsksExactly(context: Context, raw: Analysis, threshold: real, check: Check)
    ensures var d := Resolve(context, raw.candidate);
            var current := CurrentType(context);
            PlanFromAnalysis(context, raw, threshold, check).decision == AskConfirmation <==>
              || (d.Some? && !check(raw.constraints, d.value.schema).valid)
              || (current.None? && raw.byLlm && raw.confidence < threshold)
              || (current.Some? && (Interpret(current.value, raw, threshold) == AskFirst
                                    || Interpret(current.value, raw, threshold) == StartOther))
  {
  }

  /** A language model's analysis below the threshold never yields a plan that runs at once. */
  lemma LowConfidenceAsks(context: Context, raw: Analysis, threshold: real, check: Check)
    requires raw.byLlm && raw.confidence < threshold
    ensures PlanFromAnalysis(context, raw, threshold, check).decision == AskConfirmation
  {
    AsksExactly(context, raw, threshold, check);
  }

  /** Neither confirming nor validating nor revising turns a plan back into, or away from, a question. */
  lemma DecisionsAreKept(p: Plan, w: World, check: Check, r: Resolution, definitions: Option<seq<Definition>>)
    ensures ConfirmedPlan(p).decision != AskConfirmation
    ensures ValidatePlan(p, w, check).plan.decision == p.decision
    ensures RevisedPlan(p, r, definitions, check).decision == p.decision
  {
  }

  /** A confident analysis with valid constraints that decides to stop the current activity, or
      asks to stop this very activity and is not a mention, a negation or a question. */
  predicate AsksToStop(context: Context, raw: Analysis, threshold: real, check: Check) {
    var d := Resolve(context, raw.candidate);
    && (d.Some? ==> check(raw.constraints, d.value.schema).valid)
    && raw.confidence >= threshold
    && (raw.ongoingDecision == Some(StopCurrent)
        || (raw.ongoingDecision.None? && raw.candidate == CurrentType(context) && raw.operation == Some(Stop)
            && !raw.hypothetical && !raw.pastReference && !raw.negated && !raw.knowledgeQuestion))
  }

  /** Exactly this stops the current activity at once. */
  lemma StopsExactly(context: Context, raw: Analysis, threshold: real, check: Check)
    requires CurrentType(context).Some?
    ensures var p := PlanFromAnalysis(context, raw, threshold, check);
            p.decision == ContinueActivity && p.operation == Some(Stop) <==> AsksToStop(context, raw, threshold, check)
  {
    var d, current := Resolve(context, raw.candidate), CurrentType(context).value;
    if d.None? || check(raw.constraints, d.value.schema).valid {
      var a := if d.Some? then raw.(constraints := check(raw.constraints, d.value.schema).normalized,
                                    schemaVersion := Some(d.value.schemaVersion)) else raw;
      assert PlanFromAnalysis(context, raw, threshold, check) == TransitionPlan(context, a, current, Interpret(current, a, threshold));
      TransitionStops(context, a, current, Interpret(current, a, threshold));
    }
  }

  /** A confident analysis with valid constraints that decides to go on with the current activity, or
      keeps to it: by taking back a change, or by naming it for anything but stopping or talking. */
  predicate KeepsOn(context: Context, raw: Analysis, threshold: real, check: Check) {
    var d := Resolve(context, raw.candidate);
    && (d.Some? ==> check(raw.constraints, d.value.schema).valid)
    && raw.confidence >= threshold
    && (raw.ongoingDecision in {Some(ContinueCurrent), Some(ResumeCurrent), Some(PauseCurrent)}
        || (raw.ongoingDecision.None? && !raw.hypothetical && !raw.pastReference
            && (if raw.negated then raw.candidate.None? || raw.candidate == CurrentType(context)
                else !raw.knowledgeQuestion && raw.candidate == CurrentType(context)
                     && raw.operation !in {Some(Stop), Some(Explain), Some(Discuss)})))
  }

  /** Exactly this goes on with the current activity at once. */
  lemma ContinuesExactly(context: Context, raw: Analysis, threshold: real, check: Check)
    requires CurrentType(context).Some?
    ensures var p := PlanFromAnalysis(context, raw, threshold, check);
            p.decision == ContinueActivity && p.operation == Some(Continue) <==> KeepsOn(context, raw, threshold, check)
  {
    var d, current := Resolve(context, raw.candidate), CurrentType(context).value;
    if d.None? || check(raw.constraints, d.value.schema).valid {
      var a := if d.Some? then raw.(constraints := check(raw.constraints, d.value.schema).normalized,
                                    schemaVersion := Some(d.value.schemaVersion)) else raw;
      assert PlanFromAnalysis(context, raw, threshold, check) == TransitionPlan(context, a, current, Interpret(current, a, threshold));
      TransitionContinues(context, a, current, Interpret(current, a, threshold));
    }
  }

  lemma TransitionContinues(context: Context, a: Analysis, current: string, decision: OngoingDecision)
    ensures var p := TransitionPlan(context, a, current, decision);
            p.decision == ContinueActivity && p.operation == Some(Continue) <==> decision in {ContinueCurrent, ResumeCurrent, PauseCurrent}
  {
  }

  /** With nothing going on: a known activity is started or continued exactly when its constraints
      are valid, an operation is given and no unsure language model said so; else it is talk, or a question. */
  lemma StartsExactly(context: Context, raw: Analysis, threshold: real, check: Check)
    requires CurrentType(context).None?
    ensures var d, p := Resolve(context, raw.candidate), PlanFromAnalysis(context, raw, threshold, check);
      var runs := d.Some? && raw.operation.Some? && check(raw.constraints, d.value.schema).valid && !(raw.byLlm && raw.confidence < threshold);
      && (p.decision == StartActivity <==> runs && raw.operation == Some(Start))
      && (p.decision == ContinueActivity <==> runs && raw.operation != Some(Start))
      && (runs ==> Some(p.activityType) == raw.candidate && Matches(d.value, p) && p.operation == raw.operation)
      && (!runs && p.decision != AskConfirmation ==> p.decision == Conversation && p.capability.None?)
  {
    if raw.candidate.Some? { LookupType(context.definitions, raw.candidate.value); }
  }

  lemma TransitionStops(context: Context, a: Analysis, current: string, decision: OngoingDecision)
    ensures var p := TransitionPlan(context, a, current, decision);
            p.decision == ContinueActivity && p.operation == Some(Stop) <==> decision == StopCurrent
  {
  }

  /** While something is going on, speaking of what might be or was only ever leads to talk. */
  lemma MentionsAreTalk(context: Context, raw: Analysis, threshold: real, check: Check)
    requires CurrentType(context).Some? && raw.ongoingDecision.None? && (raw.hypothetical || raw.pastReference)
    ensures var p := PlanFromAnalysis(context, raw, threshold, check);
            p.decision == AskConfirmation || (p.decision == Conversation && p.capability.None?)
  {
    var d, current := Resolve(context, raw.candidate), CurrentType(context).value;
    if d.None? || check(raw.constraints, d.value.schema).valid {
      var a := if d.Some? then raw.(constraints := check(raw.constraints, d.value.schema).normalized,
                                    schemaVersion := Some(d.value.schemaVersion)) else raw;
      assert PlanFromAnalysis(context, raw, threshold, check) == TransitionPlan(context, a, current, Interpret(current, a, threshold));
      TransitionTalks(context, a, current, Interpret(current, a, threshold));
    }
  }

  lemma TransitionTalks(context: Context, a: Analysis, current: string, decision: OngoingDecision)
    requires decision == AskFirst || decision == TalkAboutCurrent
    ensures var p := TransitionPlan(context, a, current, decision);
            p.decision == AskConfirmation || (p.decision == Conversation && p.capability.None?)
  {
  }

  /** A confirmed plan is the activity and operation asked about, or nothing but talk. */
  lemma ConfirmedKeepsTarget(p: Plan, w: World, check: Check)
    ensures var q := ConfirmedPlan(p);
      && q.operation == p.operation && q.constraints == p.constraints && q.requestedNew == p.requestedNew
      && (q.decision != Conversation ==> q.activityType == p.activityType && q.capability == p.capability && q.provider == p.provider)
      && (q.decision == Conversation ==> q.capability.None? && ValidatePlan(q, w, check) == Accepted(q))
      && (q.decision == StartActivity ==> q.operation == Some(Start))
      && (q.operation == Some(Stop) ==> q.decision == ContinueActivity || q.decision == SwitchActivity)
  {
  }

  /** Wanting another registered activity while something is going on: the agent asks, and after a
      yes it is the switch to exactly that activity, to be started, with the constraints given. */
  lemma OtherIsSwitchedTo(context: Context, raw: Analysis, threshold: real, check: Check)
    requires CurrentType(context).Some? && raw.confidence >= threshold && raw.ongoingDecision.None?
    requires !raw.hypothetical && !raw.pastReference && !raw.negated && !raw.knowledgeQuestion
    requires raw.candidate.Some? && raw.candidate != CurrentType(context) && raw.candidate.value != ""
    requires Lookup(context.definitions, raw.candidate.value).Some?
    requires context.active.Some? ==> context.active.value.activityType != raw.candidate.value
    ensures var d := Lookup(context.definitions, raw.candidate.value).value;
      var asked := PlanFromAnalysis(context, raw, threshold, check);
      check(raw.constraints, d.schema).valid ==>
        && asked.decision == AskConfirmation && asked.requestedNew == raw.candidate
        && (var q := ConfirmedPlan(asked);
            && q.decision == SwitchActivity && q.activityType == raw.candidate.value && q.operation == Some(Start)
            && Matches(d, q) && q.constraints == check(raw.constraints, d.schema).normalized)
  {
    var d := Lookup(context.definitions, raw.candidate.value).value;
    LookupType(context.definitions, raw.candidate.value);
    if check(raw.constraints, d.schema).valid {
      var a := raw.(constraints := check(raw.constraints, d.schema).normalized, schemaVersion := Some(d.schemaVersion));
      var current := CurrentType(context).value;
      assert Interpret(current, a, threshold) == StartOther;
      assert PlanFromAnalysis(context, raw, threshold, check) == TransitionPlan(context, a, current, StartOther);
    }
  }

  /** Deciding to switch at once: to the other registered activity, or nothing but talk. */
  lemma SwitchesAtOnce(context: Context, a: Analysis, current: string)
    ensures var p := TransitionPlan(context, a, current, SwitchTo);
      && (p.decision == SwitchActivity || (p.decision == Conversation && p.capability.None?))
      && (p.decision == SwitchActivity ==> Some(p.activityType) == a.candidate && p.activityType != current && p.operation == Some(Start))
      && (p.decision == SwitchActivity <==>
            a.candidate.Some? && a.candidate.value != current
            && ((context.active.Some? && context.active.value.activityType == a.candidate.value)
                || Lookup(context.definitions, a.candidate.value).Some?))
  {
    if a.candidate.Some? { LookupType(context.definitions, a.candidate.value); }
  }

  /** Starting, continuing and stopping are confirmed as such; anything else is talk. */
  lemma ConfirmedAsAsked(p: Plan)
    requires p.requestedNew.None? || p.requestedNew == Some("")
    ensures ConfirmedPlan(p).decision == StartActivity <==> p.operation == Some(Start)
    ensures ConfirmedPlan(p).decision == ContinueActivity <==> p.operation == Some(Continue) || p.operation == Some(Stop)
    ensures ConfirmedPlan(p).decision == Conversation <==>
              p.operation != Some(Start) && p.operation != Some(Continue) && p.operation != Some(Stop)
  {
  }

  /** A clarification replaces the constraints it names and keeps the others; with a known
      definition they are checked together, and only valid ones are taken over. */
  lemma ClarificationMerges(p: Plan, r: Resolution, definitions: Option<seq<Definition>>, check: Check)
    requires r.kind == Clarification
    ensures var q, d := RevisedPlan(p, r, definitions, check), if definitions.Some? then FindProvider(definitions.value, p) else None;
      exists merged: map<string, Value> ::
        && merged.Keys == p.constraints.Keys + r.updates.Keys
        && (forall k | k in r.updates :: merged[k] == r.updates[k])
        && (forall k | k in p.constraints && k !in r.updates :: merged[k] == p.constraints[k])
        && (d.None? ==> q.constraints == merged && !q.constraintsInvalid)
        && (d.Some? && check(merged, d.value.schema).valid ==>
              q.constraints == check(merged, d.value.schema).normalized && !q.constraintsInvalid && q.schemaVersion == Some(d.value.schemaVersion))
        && (d.Some? && !check(merged, d.value.schema).valid ==> q == p.(constraintsInvalid := true))
        && (d.None? || check(merged, d.value.schema).valid ==> q.operation == if r.operation.None? then p.operation else r.operation)
  {
    var merged := p.constraints + r.updates;
    assert merged.Keys == p.constraints.Keys + r.updates.Keys;
  }

  ghost predicate AllScalarEnums(definitions: seq<Definition>) {
    forall i | 0 <= i < |definitions| :: ScalarEnums(Adapted(definitions[i].schema))
  }

  /** An answer may change operation and constraints of a candidate, not what it is about. */
  lemma RevisedKeepsTarget(p: Plan, r: Resolution, definitions: Option<seq<Definition>>, check: Check)
    ensures var q := RevisedPlan(p, r, definitions, check);
      q.decision == p.decision && q.activityType == p.activityType && q.capability == p.capability
      && q.provider == p.provider && q.requestedNew == p.requestedNew
  {
  }

  /** The plan to stop the active activity, made for a plan to switch. */
  function StopPlan(plan: Plan, active: Definition): Plan {
    Plan(ContinueActivity, active.activityType, Some(active.capability), Some(active.provider), Some(Stop), map[], None, false,
         plan.confidence, None, plan.ongoingDecision)
  }

  lemma {:induction false} FindMatchFinds(definitions: seq<Definition>, p: Plan)
    ensures FindMatch(definitions, p).Some? ==> FindMatch(definitions, p).value in definitions && Matches(FindMatch(definitions, p).value, p)
  {
    if definitions != [] { FindMatchFinds(definitions[1..], p); }
  }

  lemma {:induction false} SameMatch(definitions: seq<Definition>, p: Plan, q: Plan)
    requires p.activityType == q.activityType && p.capability == q.capability && p.provider == q.provider
    ensures FindMatch(definitions, p) == FindMatch(definitions, q)
  {
    if definitions != [] { SameMatch(definitions[1..], p, q); }
  }

  /** Does no enum verdict on the plan's constraints depend on the defaults filled in? */
  ghost predicate EnumsStay(p: Plan, definitions: Option<seq<Definition>>) {
    definitions.Some? && FindMatch(definitions.value, p).Some? ==>
      EnumAgrees(Obj(p.constraints), Adapted(FindMatch(definitions.value, p).value.schema))
  }

  lemma ScalarEnumsStay(p: Plan, definitions: seq<Definition>)
    requires AllScalarEnums(definitions)
    ensures EnumsStay(p, Some(definitions))
  {
    FindMatchFinds(definitions, p);
    if FindMatch(definitions, p).Some? {
      var d := FindMatch(definitions, p).value;
      var i :| 0 <= i < |definitions| && definitions[i] == d;
      ScalarEnumsAgree(Obj(p.constraints), Adapted(d.schema));
    }
  }

  /** A plan accepted once is unchanged by a second validation against the same definitions. It
      is rejected for its constraints exactly when filling changed an enum verdict, and otherwise
      only for a capability lost meanwhile. */
  lemma AcceptedTwice(p: Plan, w: World, later: World, check: Check)
    requires Faithful(check) && ValidatePlan(p, w, check).Accepted? && later.definitions == w.definitions
    ensures var q := ValidatePlan(p, w, check).plan;
            ValidatePlan(q, later, check) ==
              if q.capability.None? then Accepted(q)
              else if !EnumsStay(p, w.definitions) then Rejected(q, ConstraintsInvalid)
              else if later.available(q.capability.value, q.provider) then Accepted(q)
              else Rejected(q, CapabilityUnavailable)
    ensures w.definitions.Some? && AllScalarEnums(w.definitions.value) ==> EnumsStay(p, w.definitions)
  {
    var q := ValidatePlan(p, w, check).plan;
    if p.capability.Some? && w.definitions.Some? {
      var d := FindMatch(w.definitions.value, p).value;
      SameMatch(w.definitions.value, p, q);
      CheckedAgain(check, p.constraints, d.schema);
    }
    if w.definitions.Some? && AllScalarEnums(w.definitions.value) { ScalarEnumsStay(p, w.definitions.value); }
  }

  /** An accepted plan that needs a capability runs against a definition that has its operation,
      with the defaults filled in; its constraints conform exactly when filling changed no enum
      verdict, which scalar enums guarantee. */
  lemma AcceptedConforms(p: Plan, w: World, check: Check) returns (d: Definition)
    requires Faithful(check) && ValidatePlan(p, w, check).Accepted? && p.capability.Some? && w.definitions.Some?
    ensures var q := ValidatePlan(p, w, check).plan;
      && d in w.definitions.value && Runs(q, d)
      && (Conforms(Obj(q.constraints), Adapted(d.schema)) <==> EnumsStay(p, w.definitions))
      && (AllScalarEnums(w.definitions.value) ==> EnumsStay(p, w.definitions))
    ensures w.available(p.capability.value, p.provider)
  {
    d := FindMatch(w.definitions.value, p).value;
    FindMatchFinds(w.definitions.value, p);
    CheckedAgain(check, p.constraints, d.schema);
    if AllScalarEnums(w.definitions.value) { ScalarEnumsStay(p, w.definitions.value); }
  }

  ghost predicate Runs(q: Plan, d: Definition) {
    && Matches(d, q) && q.operation.Some? && q.operation.value in d.operations
    && Fill(Obj(q.constraints), Adapted(d.schema)) == Obj(q.constraints)
    && q.schemaVersion == Some(d.schemaVersion)
  }

  /** Which plans are accepted: talk always, and what needs a capability exactly when it names an
      operation, is available and, given definitions, the first one that matches has the operation,
      the same version if the plan says which, and a schema that the constraints satisfy. */
  lemma AcceptedExactly(p: Plan, w: World, check: Check)
    ensures p.capability.None? ==> (ValidatePlan(p, w, check).Accepted? <==> p.decision != StartActivity)
    ensures p.capability.Some? && w.definitions.None? ==>
              (ValidatePlan(p, w, check).Accepted? <==> p.operation.Some? && w.available(p.capability.value, p.provider))
    ensures p.capability.Some? && w.definitions.Some? ==>
              (ValidatePlan(p, w, check).Accepted? <==>
                 && p.operation.Some? && w.available(p.capability.value, p.provider)
                 && exists i :: 0 <= i < |w.definitions.value| && FirstMatch(w.definitions.value, p, i)
                      && var d := w.definitions.value[i];
                         p.operation.value in d.operations && (p.schemaVersion.None? || p.schemaVersion == Some(d.schemaVersion))
                         && check(p.constraints, d.schema).valid)
  {
    if w.definitions.Some? { FindMatchFirst(w.definitions.value, p); }
  }

  predicate FirstMatch(definitions: seq<Definition>, p: Plan, i: nat)
    requires i < |definitions|
  {
    Matches(definitions[i], p) && forall j | 0 <= j < i :: !Matches(definitions[j], p)
  }

  lemma {:induction false} FindMatchFirst(definitions: seq<Definition>, p: Plan)
    ensures FindMatch(definitions, p).None? <==> forall i | 0 <= i < |definitions| :: !Matches(definitions[i], p)
    ensures forall i: nat | i < |definitions| && FirstMatch(definitions, p, i) :: FindMatch(definitions, p) == Some(definitions[i])
    ensures FindMatch(definitions, p).Some? ==> exists i: nat :: i < |definitions| && FirstMatch(definitions, p, i)
  {
    if definitions != [] {
      var rest := definitions[1..];
      FindMatchFirst(rest, p);
      assert forall i | 0 < i < |definitions| :: definitions[i] == rest[i - 1];
      if Matches(definitions[0], p) {
        assert FirstMatch(definitions, p, 0);
      } else {
        forall i: nat | i < |definitions| && FirstMatch(definitions, p, i) ensures FindMatch(definitions, p) == Some(definitions[i]) {
          assert FirstMatch(rest, p, i - 1);
        }
        if FindMatch(rest, p).Some? {
          var i: nat :| i < |rest| && FirstMatch(rest, p, i);
          assert FirstMatch(definitions, p, i + 1);
        }
      }
    }
  }

  /** What `check` accepted it leaves alone in normalised form; it accepts it again, and it
      conforms, exactly when filling changed no enum verdict. */
  lemma CheckedAgain(check: Check, c: map<string, Value>, schema: Schema)
    requires Faithful(check) && check(c, schema).valid
    ensures var n := check(c, schema).normalized;
      && Fill(Obj(n), Adapted(schema)) == Obj(n)
      && check(n, schema) == Verdict(EnumAgrees(Obj(c), Adapted(schema)), n)
      && (Conforms(Obj(n), Adapted(schema)) <==> EnumAgrees(Obj(c), Adapted(schema)))
  {
    var n, s := check(c, schema).normalized, Adapted(schema);
    AcceptedAgain(Obj(c), s);
    AgreementExactly(Obj(c), s);
    FillIdempotent(Obj(c), s);
    assert Obj(n) == Fill(Obj(c), s);
    assert Obj(check(n, schema).normalized) == Obj(n);
  }

  lemma {:induction false} LookupIsMatch(definitions: seq<Definition>, t: string, p: Plan)
    requires Lookup(definitions, t).Some? && Matches(Lookup(definitions, t).value, p)
    ensures FindMatch(definitions, p) == Lookup(definitions, t)
  {
    if definitions[0].activityType != t { LookupIsMatch(definitions[1..], t, p); LookupType(definitions[1..], t); }
  }

  lemma {:induction false} LookupType(definitions: seq<Definition>, t: string)
    ensures Lookup(definitions, t).Some? ==> Lookup(definitions, t).value.activityType == t
  {
    if definitions != [] { LookupType(definitions[1..], t); }
  }

  /** A plan made outside an ongoing activity for a registered definition passes validation
      against the same definitions exactly when the operation is supported, the capability is
      available and filling changed no enum verdict: never does its definition or version fail. */
  lemma PlannedIsAccepted(context: Context, raw: Analysis, threshold: real, w: World, check: Check)
    requires Faithful(check) && w.definitions == Some(context.definitions)
    requires CurrentType(context).None?
    requires var p := PlanFromAnalysis(context, raw, threshold, check); p.decision == StartActivity || p.decision == ContinueActivity
    ensures var d := Resolve(context, raw.candidate);
            var p := PlanFromAnalysis(context, raw, threshold, check);
            d.Some? && (ValidatePlan(p, w, check).Accepted? <==>
              && p.operation.value in d.value.operations && w.available(d.value.capability, Some(d.value.provider))
              && EnumAgrees(Obj(raw.constraints), Adapted(d.value.schema)))
  {
    var d := Resolve(context, raw.candidate).value;
    var p := PlanFromAnalysis(context, raw, threshold, check);
    LookupType(context.definitions, raw.candidate.value);
    assert Matches(d, p);
    LookupIsMatch(context.definitions, raw.candidate.value, p);
    CheckedAgain(check, raw.constraints, d.schema);
  }
}
