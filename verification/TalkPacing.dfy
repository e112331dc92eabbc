/**
 When the agent starts talking by itself. Times are seconds as reals; what the service reads
 from elsewhere at a call is collected in `Inputs`.
*/
module TalkPacing {
  import opened Options

  datatype Mood = Neutral | Happy | Angry | Sad | Tired | Excited
  datatype Emotion = Emotion(mood: Mood, arousal: real, valence: real, talkativeness: real)
  datatype Drive = Drive(curiosity: real, engagement: real, boredom: real, energy: real)
  datatype Continuation = NoTopic | Wait | SuspendOriginal | AbandonOriginal | OtherDecision

  /** Everything but the service's own fields that a call depends on. */
  datatype Inputs = Inputs(
    now: real, confirmationPending: bool, activityActive: bool, activityPending: bool, ongoing: Option<nat>,
    lastUserInput: Option<real>, lastSpeechFinished: Option<real>, continuation: Continuation,
    emotion: Emotion, drive: Drive)

  predicate Unit(x: real) { 0.0 <= x <= 1.0 }

  /** What the emotion's constructor checks and the drive's constructor clamps to. */
  predicate InRange(e: Emotion, d: Drive) {
    && Unit(e.arousal) && -1.0 <= e.valence <= 1.0 && Unit(e.talkativeness)
    && Unit(d.curiosity) && Unit(d.engagement) && Unit(d.boredom) && Unit(d.energy)
  }

  function Clamp(x: real): real { if x < 0.0 then 0.0 else if x > 1.0 then 1.0 else x }

  function Tension(e: Emotion, d: Drive): real {
    Clamp(e.arousal * 0.45 + e.talkativeness * 0.45 + d.energy * 0.10)
  }

  function Interval(e: Emotion, d: Drive): real {
    60.0 - (60.0 - 8.0) * Tension(e, d)
  }

  predicate ReducesSpeech(e: Emotion) {
    e.mood == Angry || e.mood == Sad || e.mood == Tired || e.talkativeness < 0.3
  }

  predicate StartsTalk(d: Drive) {
    (d.curiosity >= 0.7 || d.engagement >= 0.75 || d.boredom >= 0.8) && d.energy >= 0.3
  }

  function SpeechPause(e: Emotion): real {
    if e.mood == Angry then 5.0
    else if e.mood == Tired then 4.0
    else if e.mood == Excited then 0.5
    else if e.talkativeness < 0.3 then 3.0
    else if e.talkativeness > 0.7 then 0.8
    else 1.5
  }

  predicate WithinPause(since: Option<real>, now: real, pause: real) {
    since.Some? && now - since.value < pause
  }

  /** The interval lies in [8,60] for all values whatsoever, and once a talk is allowed at all
      it is shorter than 52 seconds. */
  lemma IntervalBounds(e: Emotion, d: Drive)
    ensures 8.0 <= Interval(e, d) <= 60.0
    ensures InRange(e, d) && !ReducesSpeech(e) && StartsTalk(d) ==> Interval(e, d) <= 51.42
  {
    var t := Tension(e, d);
    assert 0.0 <= 52.0 * t <= 52.0;
    if InRange(e, d) && !ReducesSpeech(e) && StartsTalk(d) {
      assert e.arousal * 0.45 >= 0.0 && e.talkativeness * 0.45 >= 0.135 && d.energy * 0.10 >= 0.03;
      assert t >= 0.165;
    }
  }

  /** The pause after speech lies between half a second and five; within a mood a more talkative
      agent never pauses longer, an excited one the least and an angry one the most. */
  lemma PauseBounds(e: Emotion, f: Emotion)
    ensures 0.5 <= SpeechPause(e) <= 5.0
    ensures SpeechPause(e) == 5.0 <==> e.mood == Angry
    ensures SpeechPause(e) == 0.5 <==> e.mood == Excited
    ensures e.mood == f.mood && e.talkativeness <= f.talkativeness ==> SpeechPause(f) <= SpeechPause(e)
    ensures e.mood == Tired ==> SpeechPause(e) == 4.0
    ensures e.mood in {Neutral, Happy, Sad} ==>
              (SpeechPause(e) == 3.0 <==> e.talkativeness < 0.3) && (SpeechPause(e) == 0.8 <==> e.talkativeness > 0.7)
              && (0.3 <= e.talkativeness <= 0.7 ==> SpeechPause(e) == 1.5)
  {
  }

  /** More drive never keeps an agent from talking, and no drive makes up for lost energy. */
  lemma DriveMonotone(d: Drive, g: Drive)
    requires d.curiosity <= g.curiosity && d.engagement <= g.engagement && d.boredom <= g.boredom && d.energy <= g.energy
    ensures StartsTalk(d) ==> StartsTalk(g)
    ensures StartsTalk(d) ==> d.energy >= 0.3 && (d.curiosity >= 0.7 || d.engagement >= 0.75 || d.boredom >= 0.8)
  {
  }

  /** The interval for the values there can be: 23.4 seconds less for full arousal and for full
      talkativeness, 5.2 for full energy. */
  lemma IntervalExactly(e: Emotion, d: Drive)
    requires InRange(e, d)
    ensures Interval(e, d) == 60.0 - 23.4 * e.arousal - 23.4 * e.talkativeness - 5.2 * d.energy
  {
  }

  /** A livelier agent never waits longer. */
  lemma IntervalShrinks(e: Emotion, f: Emotion, d: Drive, g: Drive)
    requires e.arousal <= f.arousal && e.talkativeness <= f.talkativeness && d.energy <= g.energy
    ensures Interval(f, g) <= Interval(e, d)
  {
    assert e.arousal * 0.45 <= f.arousal * 0.45 && e.talkativeness * 0.45 <= f.talkativeness * 0.45;
    assert d.energy * 0.10 <= g.energy * 0.10;
    assert Tension(e, d) <= Tension(f, g);
  }

  // ---------- The pacing log ----------

  /** Consecutive planned talks are at least eight seconds apart. */
  predicate Spaced(log: seq<real>) {
    forall i | 0 <= i < |log| - 1 :: log[i + 1] - log[i] >= 8.0
  }

  /** Any k planned talks span at least 8 * (k - 1) seconds. */
  lemma {:induction false} SpanBound(log: seq<real>, i: nat, j: nat)
    requires Spaced(log) && i <= j < |log|
    ensures log[j] - log[i] >= 8.0 * (j - i) as real
  {
    if i < j { SpanBound(log, i, j - 1); }
  }

  /** How many talks were planned between `from` and `to`. */
  function Planned(log: seq<real>, from: real, to: real): nat {
    if log == [] then 0
    else Planned(log[..|log| - 1], from, to) + if from <= log[|log| - 1] <= to then 1 else 0
  }

  lemma {:induction false} PlannedLie(log: seq<real>, from: real, to: real) returns (i: nat, j: nat)
    requires Planned(log, from, to) > 0
    ensures i <= j < |log| && from <= log[i] && log[j] <= to && Planned(log, from, to) <= j - i + 1
  {
    var n := |log| - 1;
    var front := log[..n];
    if Planned(front, from, to) == 0 {
      i, j := n, n;
    } else {
      i, j := PlannedLie(front, from, to);
      if from <= log[n] <= to { j := n; }
    }
  }

  /** At most floor(T/8) + 1 talks are planned in any window of T seconds. */
  lemma RateBound(log: seq<real>, from: real, to: real)
    requires Spaced(log) && from <= to
    ensures Planned(log, from, to) <= ((to - from) / 8.0).Floor + 1
  {
    if Planned(log, from, to) > 0 {
      var i, j := PlannedLie(log, from, to);
      SpanBound(log, i, j);
      assert (j - i) as real <= (to - from) / 8.0;
    }
  }

  // ---------- The service ----------

  /** Does the service know why talking is fine again after the last input of the user? */
  predicate MayResume(s: Inputs, explicit: bool, observed: Option<nat>, idleTimeout: real) {
    explicit || observed.Some? || s.lastUserInput.None? || !WithinPause(s.lastUserInput, s.now, idleTimeout)
  }

  /** Everything that has to hold, apart from the interval since the last planned talk. */
  predicate Allowed(s: Inputs, explicit: bool, observed: Option<nat>, idleTimeout: real) {
    && !s.confirmationPending && !s.activityActive && !s.activityPending && s.ongoing.None?
    && MayResume(s, explicit, observed, idleTimeout)
    && (s.continuation == NoTopic || s.continuation == OtherDecision)
    && !ReducesSpeech(s.emotion) && StartsTalk(s.drive)
    && !WithinPause(s.lastSpeechFinished, s.now, SpeechPause(s.emotion))
  }

  class AgentLifeService {
    const idleTimeout: real
    var lastPlanned: Option<real>
    var explicitResume: bool
    var observedOngoing: Option<nat>
    ghost var log: seq<real>             // when talks were planned

    ghost predicate Valid()
      reads this
    {
      && Spaced(log)
      && lastPlanned == if log == [] then None else Some(log[|log| - 1])
    }

    constructor (idleTimeout: real)
      ensures Valid() && log == [] && this.idleTimeout == idleTimeout
    {
      this.idleTimeout, lastPlanned, explicitResume, observedOngoing := idleTimeout, None, false, None;
      log := [];
    }

    /** `plan_next_event`. Talks stay eight seconds apart, whatever the clock does, and a talk
        that is allowed is planned as soon as 51.42 seconds have passed since the last one. */
    method PlanNextEvent(s: Inputs) returns (planned: bool)
      requires Valid()
      modifies this
      ensures Valid()
      ensures log == if planned then old(log) + [s.now] else old(log)
      ensures planned ==> !explicitResume && observedOngoing.None?
      ensures planned <==> Allowed(s, old(explicitResume), old(observedOngoing), idleTimeout)
                           && !WithinPause(old(lastPlanned), s.now, Interval(s.emotion, s.drive))
      ensures InRange(s.emotion, s.drive) && Allowed(s, old(explicitResume), old(observedOngoing), idleTimeout) ==>
                planned || !(old(log) == [] || s.now - old(log)[|old(log)| - 1] >= 51.42)
      ensures !planned ==> explicitResume == old(explicitResume)
                           && (observedOngoing == old(observedOngoing) || observedOngoing == s.ongoing)
    {
      planned := false;
      IntervalBounds(s.emotion, s.drive);
      if s.confirmationPending { return; }
      if s.activityActive { return; }
      if s.activityPending { return; }
      if s.ongoing.Some? {
        observedOngoing := s.ongoing;
        return;
      }
      var resume := ResumeReason(s);
      if !resume && WithinPause(s.lastUserInput, s.now, idleTimeout) { return; }
      if s.continuation == Wait || s.continuation == SuspendOriginal || s.continuation == AbandonOriginal { return; }
      if ReducesSpeech(s.emotion) { return; }
      if !StartsTalk(s.drive) { return; }
      var pause := SpeechPause(s.emotion);
      if WithinPause(s.lastSpeechFinished, s.now, pause) { return; }
      if !resume && WithinPause(s.lastUserInput, s.now, pause) { return; }
      if WithinPause(lastPlanned, s.now, Interval(s.emotion, s.drive)) { return; }
      lastPlanned := Some(s.now);
      explicitResume := false;
      observedOngoing := None;
      log := log + [s.now];
      planned := true;
    }

    /** `_conversation_resume_reason` gives a reason. */
    method ResumeReason(s: Inputs) returns (some: bool)
      ensures some <==> MayResume(s, explicitResume, observedOngoing, idleTimeout)
    {
      if explicitResume { return true; }
      if observedOngoing.Some? { return true; }
      if s.lastUserInput.Some? && !WithinPause(s.lastUserInput, s.now, idleTimeout) { return true; }
      some := s.lastUserInput.None?;
    }

    method EndConversation()
      requires Valid()
      modifies this
      ensures Valid() && log == old(log) && explicitResume && observedOngoing == old(observedOngoing)
    {
      explicitResume := true;
    }
  }

  /** Any number of calls with any inputs: the whole run obeys the rate bound. */
  method Live(service: AgentLifeService, calls: seq<Inputs>)
    requires service.Valid()
    modifies service
    ensures service.Valid() && old(service.log) <= service.log
    ensures forall from, to | from <= to :: Planned(service.log, from, to) <= ((to - from) / 8.0).Floor + 1
  {
    for i := 0 to |calls|
      invariant service.Valid() && old(service.log) <= service.log
    {
      var planned := service.PlanNextEvent(calls[i]);
    }
    forall from, to | from <= to ensures Planned(service.log, from, to) <= ((to - from) / 8.0).Floor + 1 {
      RateBound(service.log, from, to);
    }
  }
}
