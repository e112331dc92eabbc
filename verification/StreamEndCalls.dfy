/**
 What ending a stream calls outside, in terms of what the environment answers: which calls are
 made when, and exactly which answers bring an end about.
*/
module StreamEndCalls {
  import opened Options
  import opened StreamEnd

  // ---------- What is called when ----------

  predicate Asks(e: Entry, what: External) { e.Called? && e.what == what }

  predicate Asked(trace: seq<Entry>, what: External) { exists i :: 0 <= i < |trace| && Asks(trace[i], what) }

  /** The answer to the first reading of `what`. */
  function FirstReading(trace: seq<Entry>, what: External): Option<Reply> {
    if trace == [] then None
    else if Asks(trace[0], what) then Some(trace[0].reply)
    else FirstReading(trace[1..], what)
  }

  /** Was something else than `goal` read first? */
  predicate Otherwise(reading: Option<Reply>, goal: string) {
    reading.Some? && reading.value.Value? && reading.value.text != goal
  }

  /** The broadcast is told to complete exactly when it is first read as something else, and OBS to
      stop exactly when it is first read as something else than idle. */
  predicate CallsRight(trace: seq<Entry>) {
    && (Asked(trace, CompleteBroadcast) <==> Otherwise(FirstReading(trace, GetBroadcast), "complete"))
    && (Asked(trace, StopObs) <==> Otherwise(FirstReading(trace, GetObs), "idle"))
  }

  lemma {:induction false} FirstOfJoin(a: seq<Entry>, b: seq<Entry>, what: External)
    ensures FirstReading(a + b, what) == if FirstReading(a, what).Some? then FirstReading(a, what) else FirstReading(b, what)
    ensures Asked(a + b, what) <==> Asked(a, what) || Asked(b, what)
    ensures FirstReading(a, what).Some? <==> Asked(a, what)
  {
    if a == [] {
      assert a + b == b;
    } else {
      FirstOfJoin(a[1..], b, what);
      assert (a + b)[1..] == a[1..] + b;
      AskedSplit(a, what);
      AskedSplit(a + b, what);
    }
  }

  lemma AskedSplit(trace: seq<Entry>, what: External)
    requires trace != []
    ensures Asked(trace, what) <==> Asks(trace[0], what) || Asked(trace[1..], what)
  {
    if Asked(trace, what) && !Asks(trace[0], what) {
      var i :| 0 <= i < |trace| && Asks(trace[i], what);
      assert Asks(trace[1..][i - 1], what);
    }
    if Asked(trace[1..], what) {
      var i :| 0 <= i < |trace[1..]| && Asks(trace[1..][i], what);
      assert Asks(trace[i + 1], what);
    }
  }

  lemma OneEntry(e: Entry, what: External)
    ensures FirstReading([e], what) == if Asks(e, what) then Some(e.reply) else None
    ensures Asked([e], what) <==> Asks(e, what)
  {
    AskedSplit([e], what);
  }

  lemma AskedIsRead(trace: seq<Entry>, what: External)
    ensures Asked(trace, what) <==> FirstReading(trace, what).Some?
  {
    FirstOfJoin(trace, [], what);
  }

  lemma OneCallRead(w: External, r: Reply, what: External)
    ensures FirstReading([Called(w, r)], what) == if what == w then Some(r) else None
  {
    OneEntry(Called(w, r), what);
  }

  /** What is read first when something is brought about. */
  lemma BringReads(get: External, act: External, goal: string, replies: seq<Reply>, what: External)
    requires get != act
    ensures FirstReading(Bring(get, act, goal, replies), what) ==
            if what == get then Some(NextReply(replies))
            else if what == act && Otherwise(Some(NextReply(replies)), goal) then Some(NextReply(Rest(replies)))
            else None
  {
    var a, b, c := NextReply(replies), NextReply(Rest(replies)), NextReply(Rest(Rest(replies)));
    OneCallRead(get, a, what);
    OneCallRead(get, b, what);
    OneCallRead(act, b, what);
    OneCallRead(get, c, what);
    FirstOfJoin([Called(get, a)], [Called(get, b)], what);
    FirstOfJoin([Called(get, a)], [Called(act, b)], what);
    FirstOfJoin([Called(get, a)] + [Called(act, b)], [Called(get, c)], what);
  }

  /** The readings of a normal end and of an emergency stop that decide. */
  lemma InTurnReads(first: seq<Entry>, ok: bool, second: seq<Entry>, both: bool, stream: Entry, what: External)
    requires stream.Called? && stream.what == GetStream && what != GetStream
    ensures FirstReading(InTurn(first, ok, second, both, stream), what) ==
            if FirstReading(first, what).Some? || !ok then FirstReading(first, what) else FirstReading(second, what)
  {
    FirstOfJoin(first, second, what);
    OneEntry(stream, what);
    FirstOfJoin(first + second, [stream], what);
  }

  /** Stopping everything calls rightly, whatever the environment answers. */
  lemma StopCallsRight(mode: Mode, replies: seq<Reply>)
    ensures CallsRight(StopTrace(mode, replies))
  {
    BroadcastRight(mode, replies);
    ObsRight(mode, replies);
    AskedIsRead(StopTrace(mode, replies), CompleteBroadcast);
    AskedIsRead(StopTrace(mode, replies), StopObs);
  }

  lemma BroadcastRight(mode: Mode, replies: seq<Reply>)
    ensures var trace := StopTrace(mode, replies);
            FirstReading(trace, CompleteBroadcast).Some? <==> Otherwise(FirstReading(trace, GetBroadcast), "complete")
  {
    var left := if mode == Normal then replies else AfterBring("idle", replies);
    StopReads(mode, replies, GetBroadcast);
    StopReads(mode, replies, CompleteBroadcast);
    BringReads(GetBroadcast, CompleteBroadcast, "complete", left, GetBroadcast);
    BringReads(GetBroadcast, CompleteBroadcast, "complete", left, CompleteBroadcast);
  }

  lemma ObsRight(mode: Mode, replies: seq<Reply>)
    ensures var trace := StopTrace(mode, replies);
            FirstReading(trace, StopObs).Some? <==> Otherwise(FirstReading(trace, GetObs), "idle")
  {
    var left := if mode == Emergency then replies else AfterBring("complete", replies);
    StopReads(mode, replies, GetObs);
    StopReads(mode, replies, StopObs);
    BringReads(GetObs, StopObs, "idle", left, GetObs);
    BringReads(GetObs, StopObs, "idle", left, StopObs);
  }

  /** What is read first of the four, by the order of the mode. */
  lemma StopReads(mode: Mode, replies: seq<Reply>, what: External)
    requires what != GetStream && what != RunClosingTalk
    ensures mode == Normal ==>
              FirstReading(StopTrace(mode, replies), what) ==
                if what == GetBroadcast || what == CompleteBroadcast then FirstReading(BringBroadcast(replies), what)
                else if Brought("complete", replies) == Value("complete") then FirstReading(BringObs(AfterBring("complete", replies)), what)
                else None
    ensures mode == Emergency ==>
              FirstReading(StopTrace(mode, replies), what) ==
                if what == GetObs || what == StopObs then FirstReading(BringObs(replies), what)
                else if Brought("idle", replies).Value? then FirstReading(BringBroadcast(AfterBring("idle", replies)), what)
                else None
  {
    if mode == Normal {
      var left := AfterBring("complete", replies);
      BringReads(GetBroadcast, CompleteBroadcast, "complete", replies, what);
      BringReads(GetObs, StopObs, "idle", left, what);
      InTurnReads(BringBroadcast(replies), Brought("complete", replies) == Value("complete"), BringObs(left), Brought("idle", left).Value?,
        Called(GetStream, NextReply(AfterBring("idle", left))), what);
    } else {
      var left := AfterBring("idle", replies);
      BringReads(GetObs, StopObs, "idle", replies, what);
      BringReads(GetBroadcast, CompleteBroadcast, "complete", left, what);
      InTurnReads(BringObs(replies), Brought("idle", replies).Value?, BringBroadcast(left), Brought("complete", left) == Value("complete"),
        Called(GetStream, NextReply(AfterBring("complete", left))), what);
    }
  }

  // ---------- Whole commands ----------

  /** Entries that neither read nor stop broadcast and OBS. */
  predicate Aside(trace: seq<Entry>) {
    forall e | e in trace && e.Called? :: e.what == RunClosingTalk || e.what == GetStream
  }

  lemma {:induction false} AsideReads(trace: seq<Entry>, what: External)
    requires Aside(trace) && what != RunClosingTalk && what != GetStream
    ensures FirstReading(trace, what) == None
  {
    if trace != [] {
      assert forall e | e in trace[1..] :: e in trace;
      AsideReads(trace[1..], what);
    }
  }

  lemma RightWithin(before: seq<Entry>, trace: seq<Entry>, after: seq<Entry>)
    requires Aside(before) && Aside(after) && CallsRight(trace)
    ensures CallsRight(before + trace + after)
  {
    ReadsWithin(before, trace, after, GetBroadcast);
    ReadsWithin(before, trace, after, CompleteBroadcast);
    ReadsWithin(before, trace, after, GetObs);
    ReadsWithin(before, trace, after, StopObs);
  }

  lemma ReadsWithin(before: seq<Entry>, trace: seq<Entry>, after: seq<Entry>, what: External)
    requires Aside(before) && Aside(after) && what != RunClosingTalk && what != GetStream
    ensures FirstReading(before + trace + after, what) == FirstReading(trace, what)
    ensures Asked(before + trace + after, what) <==> Asked(trace, what)
  {
    AsideReads(before, what);
    AsideReads(after, what);
    FirstOfJoin(before, trace, what);
    FirstOfJoin(before + trace, after, what);
    AskedIsRead(trace, what);
    AskedIsRead(before + trace + after, what);
  }

  lemma NothingRight(trace: seq<Entry>)
    requires Aside(trace)
    ensures CallsRight(trace)
  {
    AsideReads(trace, GetBroadcast);
    AsideReads(trace, CompleteBroadcast);
    AsideReads(trace, GetObs);
    AsideReads(trace, StopObs);
    AskedIsRead(trace, CompleteBroadcast);
    AskedIsRead(trace, StopObs);
  }

  /** Within an emergency stop. */
  lemma EmergencyCallsRight(session: nat, replies: seq<Reply>)
    ensures CallsRight(EmergencyOpening(session) + ExternalTrace(Emergency, session, replies))
  {
    var stop, end := StopTrace(Emergency, replies), Conclusion(Emergency, session, StopReply(Emergency, replies));
    StopCallsRight(Emergency, replies);
    RightWithin(EmergencyOpening(session), stop, end);
    Joined(EmergencyOpening(session), stop, end);
  }

  /** Within a normal end, whether or not the closing talk is done or works. */
  lemma NormalCallsRight(resumed: bool, done: bool, x: Context, session: nat, replies: seq<Reply>)
    ensures CallsRight(NormalTrace(resumed, done, x, session, replies))
  {
    var opening, reply := NormalOpening(resumed, session), NextReply(replies);
    var talk := TalkTrace(x, session, reply) + TalkEnd(resumed, session, AfterTalk(x, reply));
    if done {
      StoppingRight(opening, session, replies);
    } else if AfterTalk(x, reply).None? {
      StoppingRight(opening + talk, session, Rest(replies));
      Joined(opening, talk, StoppingTrace(session, Rest(replies)));
    } else {
      NothingRight(opening + talk);
      Joined(opening, talk, []);
    }
  }

  lemma StoppingRight(before: seq<Entry>, session: nat, replies: seq<Reply>)
    requires Aside(before)
    ensures CallsRight(before + StoppingTrace(session, replies))
  {
    var saved, stop, end := [Saved(session, Stopping)], StopTrace(Normal, replies), Conclusion(Normal, session, StopReply(Normal, replies));
    StopCallsRight(Normal, replies);
    RightWithin(before + saved, stop, end);
    Joined(before + saved, stop, end);
    Joined(before, saved, stop + end);
  }

  // ---------- When an end succeeds ----------

  /** The answers of an environment that brings `goal` about when asked to: it is read at once, or
      after `acknowledgement` of the request. */
  function Obeyed(goal: string, reading: string, acknowledgement: string): seq<Reply> {
    if reading == goal then [Value(goal), Value(goal)] else [Value(reading), Value(acknowledgement), Value(goal)]
  }

  predicate Stops(stream: string) { stream == "inactive" || stream == "no_data" }

  /** Such an environment, for both, in the order of the mode. */
  function AllObeyed(mode: Mode, broadcast: (string, string), obs: (string, string), stream: string): seq<Reply> {
    var first, second := Obeyed("complete", broadcast.0, broadcast.1), Obeyed("idle", obs.0, obs.1);
    (if mode == Normal then first + second else second + first) + [Value(stream)]
  }

  lemma ObeyedBrings(goal: string, reading: string, acknowledgement: string, left: seq<Reply>)
    ensures var replies := Obeyed(goal, reading, acknowledgement) + left;
            Brought(goal, replies) == Value(goal) && AfterBring(goal, replies) == left
  {
    var replies := Obeyed(goal, reading, acknowledgement) + left;
    if reading == goal {
      assert replies[2..] == left && Rest(Rest(replies)) == replies[2..];
    } else {
      assert replies[3..] == left && Rest(Rest(Rest(replies))) == replies[3..];
    }
  }

  /** Whatever is read at first: against such an environment every command ends as it should. */
  lemma ObeyedIsDone(mode: Mode, broadcast: (string, string), obs: (string, string), stream: string, left: seq<Reply>)
    requires Stops(stream)
    ensures StopOutcome(mode, AllObeyed(mode, broadcast, obs, stream) + left) == Returned(Done(mode))
  {
    var first, second := Obeyed("complete", broadcast.0, broadcast.1), Obeyed("idle", obs.0, obs.1);
    var rest := [Value(stream)] + left;
    if mode == Normal {
      assert AllObeyed(mode, broadcast, obs, stream) + left == first + (second + rest);
      ObeyedBrings("complete", broadcast.0, broadcast.1, second + rest);
      ObeyedBrings("idle", obs.0, obs.1, rest);
    } else {
      assert AllObeyed(mode, broadcast, obs, stream) + left == second + (first + rest);
      ObeyedBrings("idle", obs.0, obs.1, first + rest);
      ObeyedBrings("complete", broadcast.0, broadcast.1, rest);
    }
  }

  lemma BroughtIsObeyed(goal: string, replies: seq<Reply>) returns (reading: string, acknowledgement: string)
    requires Brought(goal, replies) == Value(goal)
    ensures replies == Obeyed(goal, reading, acknowledgement) + AfterBring(goal, replies)
  {
    reading, acknowledgement := NextReply(replies).text, "";
    if reading != goal { acknowledgement := NextReply(Rest(replies)).text; }
    if reading == goal {
      assert replies == replies[..2] + replies[2..] && Rest(Rest(replies)) == replies[2..];
    } else {
      assert replies == replies[..3] + replies[3..] && Rest(Rest(Rest(replies))) == replies[3..];
    }
  }

  lemma TwoObeyed(first: string, second: string, replies: seq<Reply>) returns (a: (string, string), b: (string, string), last: seq<Reply>)
    requires Brought(first, replies) == Value(first) && Brought(second, AfterBring(first, replies)) == Value(second)
    ensures last == AfterBring(second, AfterBring(first, replies))
    ensures replies == Obeyed(first, a.0, a.1) + (Obeyed(second, b.0, b.1) + last)
  {
    var r, k := BroughtIsObeyed(first, replies);
    var r', k' := BroughtIsObeyed(second, AfterBring(first, replies));
    a, b, last := (r, k), (r', k'), AfterBring(second, AfterBring(first, replies));
  }

  /** And only against such an environment. */
  lemma DoneIsObeyed(mode: Mode, replies: seq<Reply>)
    returns (broadcast: (string, string), obs: (string, string), stream: string, left: seq<Reply>)
    requires StopOutcome(mode, replies) == Returned(Done(mode))
    ensures Stops(stream) && replies == AllObeyed(mode, broadcast, obs, stream) + left
  {
    DoneBrings(mode, replies);
    if mode == Normal {
      broadcast, obs, stream, left := InTurnObeyed("complete", "idle", replies);
    } else {
      obs, broadcast, stream, left := InTurnObeyed("idle", "complete", replies);
    }
  }

  lemma InTurnObeyed(first: string, second: string, replies: seq<Reply>)
    returns (a: (string, string), b: (string, string), stream: string, left: seq<Reply>)
    requires Brought(first, replies) == Value(first) && Brought(second, AfterBring(first, replies)) == Value(second)
    requires var r := NextReply(AfterBring(second, AfterBring(first, replies))); r.Value? && Stops(r.text)
    ensures Stops(stream) && replies == Obeyed(first, a.0, a.1) + Obeyed(second, b.0, b.1) + [Value(stream)] + left
  {
    var last;
    a, b, last := TwoObeyed(first, second, replies);
    stream, left := NextReply(last).text, Rest(last);
    HeadAndRest(last);
    Regrouped(Obeyed(first, a.0, a.1), Obeyed(second, b.0, b.1), [Value(stream)], left);
  }

  lemma HeadAndRest(replies: seq<Reply>)
    requires NextReply(replies).Value?
    ensures replies == [Value(NextReply(replies).text)] + Rest(replies)
  {
  }

  lemma Regrouped(a: seq<Reply>, b: seq<Reply>, c: seq<Reply>, d: seq<Reply>)
    ensures a + (b + (c + d)) == a + b + c + d
  {
  }

  lemma DoneBrings(mode: Mode, replies: seq<Reply>)
    requires StopOutcome(mode, replies) == Returned(Done(mode))
    ensures var first, second := if mode == Normal then "complete" else "idle", if mode == Normal then "idle" else "complete";
      var left := AfterBring(first, replies);
      var stream := NextReply(AfterBring(second, left));
      && Brought(first, replies) == Value(first) && Brought(second, left) == Value(second)
      && stream.Value? && Stops(stream.text)
  {
  }

  /** A whole normal end succeeds exactly when, before that, the closing talk is done or completes. */
  lemma NormalDoneExactly(done: bool, x: Context, replies: seq<Reply>)
    ensures NormalOutcome(done, x, replies) == Returned(Done(Normal)) <==>
              if done then StopOutcome(Normal, replies) == Returned(Done(Normal))
              else TalkPossible(x) && replies != [] && replies[0] == Value("completed")
                   && StopOutcome(Normal, replies[1..]) == Returned(Done(Normal))
  {
  }

  /** The commands themselves: within each the calls are right, and against such an environment it
      succeeds. */
  method EndNormally(u: EndStreamSession, c: Command, x: Context) returns (o: Outcome)
    requires u.Valid() && NormalRefusal(u.sessions, c, x).None?
    modifies u
    ensures u.Valid() && old(u.log) <= u.log && CallsRight(u.log[|old(u.log)|..])
    ensures forall broadcast, obs, stream, left | Stops(stream) ::
              (if old(u.ClosingIsDone(c.session)) then old(u.replies) == AllObeyed(Normal, broadcast, obs, stream) + left
               else TalkPossible(x) && old(u.replies) == [Value("completed")] + (AllObeyed(Normal, broadcast, obs, stream) + left)) ==>
                o == Returned(Done(Normal)) && c.session in u.sessions && u.sessions[c.session].status == Completed
  {
    ghost var before, done, replies := u.sessions[c.session], u.ClosingIsDone(c.session), u.replies;
    ghost var trace := NormalTrace(before.status == StopFailed, done, x, c.session, replies);
    o := u.NormalLocked(c, x);
    NormalCallsRight(before.status == StopFailed, done, x, c.session, replies);
    assert u.log[|old(u.log)|..] == trace;
    forall broadcast, obs, stream, left | Stops(stream) { ObeyedIsDone(Normal, broadcast, obs, stream, left); }
    assert replies != [] ==> replies == [replies[0]] + replies[1..];
  }

  /** Running output was asked to stop before anything outside was called. */
  predicate CanceledFirst(log: seq<Entry>, from: nat, i: nat)
    requires i < |log|
  {
    log[i] == OutputCanceled && forall j | from <= j < i :: !log[j].Called?
  }

  method EndInEmergency(u: EndStreamSession, c: Command, x: Context) returns (o: Outcome)
    requires u.Valid() && EmergencyRefusal(u.sessions, c, x).None?
    modifies u
    ensures u.Valid() && old(u.log) <= u.log && CallsRight(u.log[|old(u.log)|..])
    ensures exists i :: |old(u.log)| < i < |u.log| && CanceledFirst(u.log, |old(u.log)|, i)
    ensures forall broadcast, obs, stream, left | Stops(stream) ::
              old(u.replies) == AllObeyed(Emergency, broadcast, obs, stream) + left ==>
                o == Returned(Done(Emergency)) && c.session in u.sessions && u.sessions[c.session].status == EmergencyStopped
  {
    ghost var replies := u.replies;
    o := u.EmergencyLocked(c, x);
    EmergencyCallsRight(c.session, replies);
    assert CanceledFirst(u.log, |old(u.log)|, |old(u.log)| + 2);
    assert u.log[|old(u.log)|..] == EmergencyOpening(c.session) + ExternalTrace(Emergency, c.session, replies);
    forall broadcast, obs, stream, left | Stops(stream) { ObeyedIsDone(Emergency, broadcast, obs, stream, left); }
  }
}
