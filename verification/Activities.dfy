/** The values that the activity manager, the planner, the executor and their queue share. */
module Activities {
  import opened Options

  datatype ActivityType =
    | ConversationWithUser | GameWithUser | GameInputClassification | BehaviorPlanning | AutonomousTalk
    | StartupReaction | StreamOpeningGreeting | StreamMainSegment | StreamCommentResponse
    | StreamClosingGreeting | ListeningMode | StimulusReaction | CuriosityResearch | TopicExploration
    | ExternalTrendWatch | BodyExpressionLoop | IdleObservation

  datatype Status = Pending | Active | AwaitingInput | Suspended | Completed | Canceled

  datatype Activity = Activity(
    id: nat, kind: ActivityType, status: Status, priority: int, interruptible: bool, sourceEvent: Option<nat>)

  datatype EventType =
    | UserText | YoutubeComment | UserSpeech | CameraFrame | SilenceTimeout | SpeechStarted | SpeechFinished
    | CuriosityPeak | TrendUpdated | ActionFailed | SystemStarted | SystemStopped | AppStarted | StreamStarted
    | MainSegment | CommentResponse | StreamEnding | StreamEnded

  datatype Event = Event(id: nat, kind: EventType, priority: int, replaceKey: Option<string>)

  predicate Terminal(s: Status) { s == Completed || s == Canceled }

  function Filter<T>(xs: seq<T>, p: T -> bool): seq<T> {
    if xs == [] then [] else (if p(xs[0]) then [xs[0]] else []) + Filter(xs[1..], p)
  }

  function Not<T>(p: T -> bool): T -> bool { x => !p(x) }

  lemma {:induction false} FilterMembers<T(!new)>(xs: seq<T>, p: T -> bool)
    ensures forall x :: x in Filter(xs, p) <==> x in xs && p(x)
    ensures |Filter(xs, p)| <= |xs|
  {
    if xs != [] { FilterMembers(xs[1..], p); }
  }

  lemma {:induction false} FilterConcat<T>(xs: seq<T>, ys: seq<T>, p: T -> bool)
    ensures Filter(xs + ys, p) == Filter(xs, p) + Filter(ys, p)
  {
    if xs == [] {
      assert xs + ys == ys;
    } else {
      FilterConcat(xs[1..], ys, p);
      assert (xs + ys)[1..] == xs[1..] + ys;
      var head := if p(xs[0]) then [xs[0]] else [];
      assert Filter(xs + ys, p) == head + Filter(xs[1..] + ys, p);
      assert Filter(xs, p) == head + Filter(xs[1..], p);
    }
  }

  /** How filtering grows with one more element. */
  lemma FilterStep<T>(xs: seq<T>, i: nat, p: T -> bool)
    requires i < |xs|
    ensures Filter(xs[..i + 1], p) == Filter(xs[..i], p) + if p(xs[i]) then [xs[i]] else []
  {
    assert xs[..i + 1] == xs[..i] + [xs[i]];
    FilterConcat(xs[..i], [xs[i]], p);
  }

  lemma {:induction false} FilterSplits<T>(xs: seq<T>, p: T -> bool)
    ensures multiset(Filter(xs, p)) + multiset(Filter(xs, Not(p))) == multiset(xs)
  {
    if xs != [] {
      FilterSplits(xs[1..], p);
      assert xs == [xs[0]] + xs[1..];
    }
  }

  lemma {:induction false} FilterNothing<T>(xs: seq<T>, p: T -> bool)
    ensures Filter(xs, Not(p)) == [] ==> Filter(xs, p) == xs
  {
    if xs != [] { FilterNothing(xs[1..], p); }
  }

  lemma {:induction false} FilterTwice<T>(xs: seq<T>, p: T -> bool)
    ensures Filter(Filter(xs, p), p) == Filter(xs, p)
  {
    if xs != [] {
      FilterTwice(xs[1..], p);
      FilterConcat(if p(xs[0]) then [xs[0]] else [], Filter(xs[1..], p), p);
    }
  }
}
