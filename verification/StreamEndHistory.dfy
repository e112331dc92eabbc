/**
 Whole histories of end commands: what every one of them keeps, and exactly when a command
 whose result is already recorded still calls out. Arrivals, runs under the lock and
 departures come in any order; a command that had passed the entry check before its result
 was recorded is a run without a new arrival.
*/
module StreamEndHistory {
  import opened StreamEnd

  /** How the result of a command came to be recorded. */
  datatype Recording = Recording(
    command: Command, mode: Mode, result: Result,
    resumed: bool,        // did the command find the session in STOP_FAILED?
    session: Session)     // the session right after the recording

  /** A recording as the two kinds of end make them. Only a normal end that resumed the session
      and failed in the closing talk leaves the version its command expects. */
  predicate MadeRight(r: Recording) {
    && r.session.status == (if r.result.FailedAt? then StopFailed else Final(r.mode))
    && (r.mode == Normal ==>
          && r.command.expectedVersion <= r.session.version
          && (r.session.version == r.command.expectedVersion <==> r.resumed && r.result == FailedAt(Normal, ClosingStep)))
  }

  /** A session for which some result has been recorded never goes back before these. */
  predicate AfterResult(s: Status) {
    s == StopFailed || s == Stopping || s == EmergencyStopping || s == Completed || s == EmergencyStopped
  }

  /** What is known of the session and its closing talk ever since the recording. */
  predicate Since(r: Recording, now: Session, closingDone: bool) {
    && AfterResult(now.status)
    && now.version >= r.session.version
    && (now.version == r.session.version ==> now == r.session)
    && (now.version == r.session.version && r.result == FailedAt(Normal, ClosingStep) ==> !closingDone)
  }

  predicate Known(id: nat, r: Recording, sessions: map<nat, Session>, results: map<nat, Result>, closing: map<nat, ClosingState>) {
    && id in results && results[id] == r.result && r.command.id == id && MadeRight(r)
    && r.command.session in sessions
    && Since(r, sessions[r.command.session], DoneIn(closing, r.command.session))
  }

  /** `recorded` tells of each result in the dictionary how it got there. */
  ghost predicate Account(recorded: map<nat, Recording>, sessions: map<nat, Session>, results: map<nat, Result>, closing: map<nat, ClosingState>) {
    results.Keys == recorded.Keys && forall id | id in recorded :: Known(id, recorded[id], sessions, results, closing)
  }

  ghost predicate Remembers(u: EndStreamSession, recorded: map<nat, Recording>)
    reads u
  {
    Account(recorded, u.sessions, u.results, u.closing)
  }

  // ---------- One command ----------

  lemma NormalKeepsSince(r: Recording, before: Session, after: Session, doneBefore: bool, doneAfter: bool, o: Outcome)
    requires Since(r, before, doneBefore) && before.status == StopFailed && NormalEffect(before, after, o)
    requires doneAfter ==> after.version > before.version
    ensures Since(r, after, doneAfter)
  {
  }

  lemma EmergencyKeepsSince(r: Recording, before: Session, after: Session, done: bool, o: Outcome)
    requires Since(r, before, done) && EmergencyEffect(before, after, o)
    ensures Since(r, after, done)
  {
  }

  /** The account after a command of either mode that was accepted. */
  function Recorded(recorded: map<nat, Recording>, c: Command, mode: Mode, before: Session, after: Session, o: Outcome): map<nat, Recording> {
    if o.Returned? then recorded[c.id := Recording(c, mode, o.result, before.status == StopFailed, after)] else recorded
  }

  function ResultsAfter(results: map<nat, Result>, c: Command, o: Outcome): map<nat, Result> {
    if o.Returned? then results[c.id := o.result] else results
  }

  /** Carrying the account over one accepted command on session `c.session`. */
  lemma AccountKept(recorded: map<nat, Recording>, sessions: map<nat, Session>, results: map<nat, Result>, closing: map<nat, ClosingState>,
                    c: Command, mode: Mode, after: Session, later: map<nat, ClosingState>, o: Outcome)
    requires Account(recorded, sessions, results, closing) && c.session in sessions
    requires forall s | s != c.session :: DoneIn(later, s) == DoneIn(closing, s)
    requires forall id | id in recorded && recorded[id].command.session == c.session ::
               Since(recorded[id], after, DoneIn(later, c.session))
    requires o.Returned? ==>
               MadeRight(Recording(c, mode, o.result, sessions[c.session].status == StopFailed, after))
               && AfterResult(after.status) && (o.result == FailedAt(Normal, ClosingStep) ==> !DoneIn(later, c.session))
    ensures Account(Recorded(recorded, c, mode, sessions[c.session], after, o), sessions[c.session := after], ResultsAfter(results, c, o), later)
  {
    var next := Recorded(recorded, c, mode, sessions[c.session], after, o);
    forall id | id in next ensures Known(id, next[id], sessions[c.session := after], ResultsAfter(results, c, o), later) {
      if !(o.Returned? && id == c.id) { assert Known(id, recorded[id], sessions, results, closing); }
    }
  }

  lemma NormalAccount(recorded: map<nat, Recording>, sessions: map<nat, Session>, results: map<nat, Result>, closing: map<nat, ClosingState>,
                      c: Command, x: Context, after: Session, later: map<nat, ClosingState>, o: Outcome)
    requires Account(recorded, sessions, results, closing)
    requires NormalRefusal(sessions, c, x).None? && NormalEffect(sessions[c.session], after, o)
    requires forall s | s != c.session :: DoneIn(later, s) == DoneIn(closing, s)
    requires DoneIn(later, c.session) ==> after.version > sessions[c.session].version
    requires o == Returned(FailedAt(Normal, ClosingStep)) ==> !DoneIn(later, c.session)
    ensures Account(Recorded(recorded, c, Normal, sessions[c.session], after, o), sessions[c.session := after], ResultsAfter(results, c, o), later)
  {
    forall id | id in recorded && recorded[id].command.session == c.session
      ensures Since(recorded[id], after, DoneIn(later, c.session))
    {
      assert Known(id, recorded[id], sessions, results, closing);
      NormalKeepsSince(recorded[id], sessions[c.session], after, DoneIn(closing, c.session), DoneIn(later, c.session), o);
    }
    AccountKept(recorded, sessions, results, closing, c, Normal, after, later, o);
  }

  lemma EmergencyAccount(recorded: map<nat, Recording>, sessions: map<nat, Session>, results: map<nat, Result>, closing: map<nat, ClosingState>,
                         c: Command, after: Session, o: Outcome)
    requires Account(recorded, sessions, results, closing) && c.session in sessions
    requires EmergencyEffect(sessions[c.session], after, o)
    ensures Account(Recorded(recorded, c, Emergency, sessions[c.session], after, o), sessions[c.session := after], ResultsAfter(results, c, o), closing)
  {
    forall id | id in recorded && recorded[id].command.session == c.session
      ensures Since(recorded[id], after, DoneIn(closing, c.session))
    {
      assert Known(id, recorded[id], sessions, results, closing);
      EmergencyKeepsSince(recorded[id], sessions[c.session], after, DoneIn(closing, c.session), o);
    }
    AccountKept(recorded, sessions, results, closing, c, Emergency, after, closing, o);
  }

  lemma TalkFailedOpen(done: bool, x: Context, replies: seq<Reply>)
    ensures NormalOutcome(done, x, replies) == TALK_FAILED ==> !Past(done, x, replies)
  {
  }

  method RunNormal(u: EndStreamSession, c: Command, x: Context, ghost recorded: map<nat, Recording>)
    returns (o: Outcome, ghost next: map<nat, Recording>)
    requires u.Valid() && Remembers(u, recorded)
    modifies u`log, u`replies, u`closing, u`sessions, u`results
    ensures u.Valid() && Remembers(u, next) && old(u.log) <= u.log
    ensures o.Refused? ==> next == recorded
    ensures !o.Refused? ==> c.session in old(u.sessions) && c.session in u.sessions
                            && next == Recorded(recorded, c, Normal, old(u.sessions)[c.session], u.sessions[c.session], o)
    ensures Calls(u.log) > Calls(old(u.log)) <==> NormalCallsOut(old(u.sessions), old(u.ClosingIsDone(c.session)), c, x)
    ensures o.Refused? <==> NormalRefusal(old(u.sessions), c, x).Some?
    ensures !o.Refused? ==>
              u.Ended(c, x, o, old(u.sessions)[c.session], old(u.ClosingIsDone(c.session)), old(u.replies), old(u.log))
  {
    ghost var sessions, results, closing := u.sessions, u.results, u.closing;
    o := u.NormalLocked(c, x);
    next := recorded;
    if !o.Refused? {
      next := Recorded(recorded, c, Normal, sessions[c.session], u.sessions[c.session], o);
      forall s | s != c.session ensures DoneIn(u.closing, s) == DoneIn(closing, s) {
        assert u.ClosingIsDone(s) == old(u.ClosingIsDone(s));
      }
      assert u.ClosingIsDone(c.session) <==> DoneIn(u.closing, c.session);
      TalkFailedOpen(old(u.ClosingIsDone(c.session)), x, old(u.replies));
      NormalAccount(recorded, sessions, results, closing, c, x, u.sessions[c.session], u.closing, o);
    }
  }

  method RunEmergency(u: EndStreamSession, c: Command, x: Context, ghost recorded: map<nat, Recording>)
    returns (o: Outcome, ghost next: map<nat, Recording>)
    requires u.Valid() && Remembers(u, recorded)
    modifies u`log, u`replies, u`sessions, u`results
    ensures u.Valid() && Remembers(u, next) && old(u.log) <= u.log
    ensures o.Refused? ==> next == recorded
    ensures !o.Refused? ==> c.session in old(u.sessions) && c.session in u.sessions
                            && next == Recorded(recorded, c, Emergency, old(u.sessions)[c.session], u.sessions[c.session], o)
    ensures Calls(u.log) > Calls(old(u.log)) <==> EmergencyRefusal(old(u.sessions), c, x).None?
    ensures o.Refused? <==> EmergencyRefusal(old(u.sessions), c, x).Some?
    ensures !o.Refused? ==> u.StoppedBy(c, o, old(u.sessions)[c.session], old(u.replies), old(u.log))
  {
    ghost var sessions, results := u.sessions, u.results;
    o := u.EmergencyLocked(c, x);
    next := recorded;
    if !o.Refused? {
      next := Recorded(recorded, c, Emergency, sessions[c.session], u.sessions[c.session], o);
      EmergencyAccount(recorded, sessions, results, u.closing, c, u.sessions[c.session], o);
    }
  }

  // ---------- Histories ----------

  datatype Event =
    | NormalComes(task: nat, command: Command)
    | NormalRuns(command: Command, context: Context)
    | NormalGoes(task: nat)
    | EmergencyComes(command: Command)
    | EmergencyRuns(command: Command, context: Context)

  /** Every history, queued duplicates included, against every environment: the log is safe, the
      closing talk is recorded at most once per session, and the account of the results holds. */
  method History(u: EndStreamSession, events: seq<Event>, ghost start: map<nat, Recording>)
    returns (ghost recorded: map<nat, Recording>)
    requires u.Valid() && Remembers(u, start)
    modifies u
    ensures u.Valid() && Safe(u.log) && old(u.log) <= u.log && Remembers(u, recorded)
    ensures forall session :: ClosingsDone(u.log, session) <= 1
  {
    recorded := start;
    for i := 0 to |events|
      invariant u.Valid() && old(u.log) <= u.log && Remembers(u, recorded)
    {
      recorded := Happens(u, events[i], recorded);
    }
  }

  method Happens(u: EndStreamSession, event: Event, ghost recorded: map<nat, Recording>)
    returns (ghost next: map<nat, Recording>)
    requires u.Valid() && Remembers(u, recorded)
    modifies u
    ensures u.Valid() && old(u.log) <= u.log && Remembers(u, next)
  {
    next := recorded;
    match event {
      case NormalComes(task, c) => var cached := u.NormalArrives(task, c);
      case NormalGoes(task) => u.NormalLeaves(task);
      case EmergencyComes(c) => var cached, cancels := u.EmergencyArrives(c);
      case NormalRuns(c, x) =>
        var o;
        o, next := RunNormal(u, c, x, recorded);
      case EmergencyRuns(c, x) =>
        var o;
        o, next := RunEmergency(u, c, x, recorded);
    }
  }

  // ---------- A command whose result is recorded ----------

  /** Past the entry check a recorded result stops nothing. Whatever the state, a command that
      gets the lock calls out exactly when its checks accept it and, for a normal end, the
      closing talk is done or possible. */
  method RunsAgainExactly(u: EndStreamSession, c: Command, mode: Mode, x: Context) returns (o: Outcome)
    requires u.Valid() && c.id in u.results
    modifies u
    ensures u.Valid() && old(u.log) <= u.log
    ensures mode == Normal ==>
              ((exists i :: |old(u.log)| <= i < |u.log| && u.log[i].Called?) <==>
                 NormalRefusal(old(u.sessions), c, x).None? && (old(u.ClosingIsDone(c.session)) || TalkPossible(x)))
    ensures mode == Emergency ==>
              ((exists i :: |old(u.log)| <= i < |u.log| && u.log[i].Called?) <==>
                 EmergencyRefusal(old(u.sessions), c, x).None?)
  {
    if mode == Normal { o := u.NormalLocked(c, x); } else { o := u.EmergencyLocked(c, x); }
    CallsGrow(old(u.log), u.log);
  }

  /** A queued duplicate of a recorded normal end calls out exactly when the session's version is
      still the expected one and the other components let it: then the session is in STOP_FAILED
      and the closing talk is run again. */
  lemma RecordedNormalCallsOut(u: EndStreamSession, recorded: map<nat, Recording>, c: Command, x: Context)
    requires Remembers(u, recorded) && c.id in recorded && recorded[c.id].command == c && recorded[c.id].mode == Normal
    ensures c.session in u.sessions
    ensures NormalCallsOut(u.sessions, u.ClosingIsDone(c.session), c, x) <==>
              && u.sessions[c.session].version == c.expectedVersion
              && x.gateAllows && x.mainCompleted && x.adaptersFit && TalkPossible(x)
    ensures u.sessions[c.session].version == c.expectedVersion ==>
              u.sessions[c.session].status == StopFailed && !u.ClosingIsDone(c.session)
  {
    assert Known(c.id, recorded[c.id], u.sessions, u.results, u.closing);
  }

  /** And the version is still the expected one exactly when the recorded run had resumed the
      session and failed in the closing talk, and no command has moved the session since. */
  lemma StillExpected(u: EndStreamSession, recorded: map<nat, Recording>, c: Command)
    requires Remembers(u, recorded) && c.id in recorded && recorded[c.id].command == c && recorded[c.id].mode == Normal
    ensures c.session in u.sessions
    ensures u.sessions[c.session].version == c.expectedVersion <==>
              && recorded[c.id].resumed && recorded[c.id].result == FailedAt(Normal, ClosingStep)
              && u.sessions[c.session] == recorded[c.id].session
  {
    assert Known(c.id, recorded[c.id], u.sessions, u.results, u.closing);
  }

  /** A queued duplicate of a recorded emergency stop calls out exactly when the session is back
      in STOP_FAILED at the version it expects, or a resumed normal end was left in STOPPING,
      where the version is not checked. */
  lemma RecordedEmergencyCallsOut(u: EndStreamSession, recorded: map<nat, Recording>, c: Command, x: Context)
    requires Remembers(u, recorded) && c.id in recorded && recorded[c.id].command == c && recorded[c.id].mode == Emergency
    ensures c.session in u.sessions
    ensures EmergencyRefusal(u.sessions, c, x).None? <==>
              && x.gateAllows && x.adaptersFit
              && var s := u.sessions[c.session];
                 s.status == Stopping || (s.status == StopFailed && s.version == c.expectedVersion)
    ensures recorded[c.id].result == Done(Emergency) && u.sessions[c.session] == recorded[c.id].session ==>
              EmergencyRefusal(u.sessions, c, x).Some?
  {
    assert Known(c.id, recorded[c.id], u.sessions, u.results, u.closing);
  }

  /** After any history: what a queued duplicate of a recorded normal end does. */
  method RunRecordedNormal(u: EndStreamSession, c: Command, x: Context, ghost recorded: map<nat, Recording>)
    returns (o: Outcome)
    requires u.Valid() && Remembers(u, recorded)
    requires c.id in recorded && recorded[c.id].command == c && recorded[c.id].mode == Normal
    modifies u
    ensures u.Valid() && old(u.log) <= u.log
    ensures c.session in old(u.sessions)
    ensures (exists i :: |old(u.log)| <= i < |u.log| && u.log[i].Called?) <==>
              && old(u.sessions)[c.session].version == c.expectedVersion
              && x.gateAllows && x.mainCompleted && x.adaptersFit && TalkPossible(x)
  {
    RecordedNormalCallsOut(u, recorded, c, x);
    ghost var next;
    o, next := RunNormal(u, c, x, recorded);
    CallsGrow(old(u.log), u.log);
  }

  /** After any history: what a queued duplicate of a recorded emergency stop does. */
  method RunRecordedEmergency(u: EndStreamSession, c: Command, x: Context, ghost recorded: map<nat, Recording>)
    returns (o: Outcome)
    requires u.Valid() && Remembers(u, recorded)
    requires c.id in recorded && recorded[c.id].command == c && recorded[c.id].mode == Emergency
    modifies u
    ensures u.Valid() && old(u.log) <= u.log
    ensures c.session in old(u.sessions)
    ensures (exists i :: |old(u.log)| <= i < |u.log| && u.log[i].Called?) <==>
              && x.gateAllows && x.adaptersFit
              && var s := old(u.sessions)[c.session];
                 s.status == Stopping || (s.status == StopFailed && s.version == c.expectedVersion)
  {
    RecordedEmergencyCallsOut(u, recorded, c, x);
    ghost var next;
    o, next := RunEmergency(u, c, x, recorded);
    CallsGrow(old(u.log), u.log);
  }

  // ---------- All of them do happen ----------

  const WILLING := Context(true, true, true, true, true)

  /** Is the result of `c` recorded, by a run of `c` itself? */
  ghost predicate RanAndRecorded(u: EndStreamSession, recorded: map<nat, Recording>, c: Command, mode: Mode)
    reads u
  {
    u.Valid() && Remembers(u, recorded) && c.id in recorded && recorded[c.id].command == c && recorded[c.id].mode == mode
  }

  /** A resumed normal end fails in its closing talk: its result is recorded, yet a duplicate that
      was waiting meets the condition under which it calls out. */
  method NormalLeftOpen() returns (u: EndStreamSession, c: Command, ghost recorded: map<nat, Recording>)
    ensures RanAndRecorded(u, recorded, c, Normal)
    ensures NormalCallsOut(u.sessions, u.ClosingIsDone(c.session), c, WILLING)
  {
    u := new EndStreamSession(map[1 := Session(StopFailed, 5)], [Raised]);
    c := Command(7, 1, 5);
    var o;
    o, recorded := RunNormal(u, c, WILLING, map[]);
  }

  /** An emergency stop arrives while a normal end, cancelled in its closing talk, has left the
      session closing: the version it names is reached by its own failure. */
  method EmergencyLeftOpen() returns (u: EndStreamSession, c: Command, ghost recorded: map<nat, Recording>)
    ensures RanAndRecorded(u, recorded, c, Emergency) && u.sessions[c.session].status == StopFailed
    ensures EmergencyRefusal(u.sessions, c, WILLING).None?
  {
    u, recorded := LeftClosing();
    c := Command(7, 1, 13);
    recorded := FailedInEmergency(u, c, recorded);
  }

  method LeftClosing() returns (u: EndStreamSession, ghost recorded: map<nat, Recording>)
    ensures fresh(u) && u.Valid() && Remembers(u, recorded)
    ensures 1 in u.sessions && u.sessions[1] == Session(Closing, 10)
  {
    u := new EndStreamSession(map[1 := Session(Live, 8)], [Interrupted]);
    var o;
    o, recorded := RunNormal(u, Command(6, 1, 8), WILLING, map[]);
  }

  /** An accepted emergency stop whose first call raises. */
  method FailedInEmergency(u: EndStreamSession, c: Command, ghost recorded: map<nat, Recording>) returns (ghost next: map<nat, Recording>)
    requires u.Valid() && Remembers(u, recorded) && EmergencyRefusal(u.sessions, c, WILLING).None?
    modifies u
    ensures RanAndRecorded(u, next, c, Emergency) && u.closing == old(u.closing)
    ensures c.session in u.sessions && u.sessions[c.session] == Session(StopFailed, old(u.sessions)[c.session].version + 3)
  {
    u.replies := [Raised];
    var o;
    o, next := RunEmergency(u, c, WILLING, recorded);
  }

  /** A failed emergency stop, and a normal end that resumes and is cancelled in STOPPING: there
      the version is not checked. */
  method EmergencyLeftStopping() returns (u: EndStreamSession, c: Command, ghost recorded: map<nat, Recording>)
    ensures RanAndRecorded(u, recorded, c, Emergency) && u.sessions[c.session].status == Stopping
    ensures EmergencyRefusal(u.sessions, c, WILLING).None?
  {
    u := new EndStreamSession(map[1 := Session(StopFailed, 5)], []);
    c := Command(7, 1, 5);
    recorded := FailedInEmergency(u, c, map[]);
    recorded := ResumedAndCancelled(u, c, recorded);
  }

  /** A normal end resumes the session of `c`, completes the talk and is cancelled in STOPPING. */
  method ResumedAndCancelled(u: EndStreamSession, c: Command, ghost recorded: map<nat, Recording>) returns (ghost next: map<nat, Recording>)
    requires RanAndRecorded(u, recorded, c, Emergency) && u.sessions[c.session].status == StopFailed && !u.ClosingIsDone(c.session)
    modifies u
    ensures RanAndRecorded(u, next, c, Emergency) && u.sessions[c.session].status == Stopping
  {
    u.replies := [Value("completed"), Interrupted];
    var resuming := Command(c.id + 1, c.session, u.sessions[c.session].version);
    var o;
    o, next := RunNormal(u, resuming, WILLING, recorded);
    assert o == Cancelled;
  }

  // ---------- A closing talk that was started before ----------

  /** After any history in which the closing talk of the session was started, spoken or not: a
      normal end starts it again exactly when the session has come to STOP_FAILED, with no talk
      recorded as completed, and the command and the other components agree. */
  method TalkStartsAgain(u: EndStreamSession, c: Command, x: Context) returns (o: Outcome)
    requires u.Valid() && TalkedIn(u.log, c.session)
    modifies u
    ensures u.Valid() && old(u.log) <= u.log
    ensures c.session in old(u.sessions)
    ensures (exists i :: |old(u.log)| <= i < |u.log| && StartsTalk(u.log[i])) <==>
              && old(u.sessions)[c.session].status == StopFailed && !old(u.ClosingIsDone(c.session))
              && old(u.sessions)[c.session].version == c.expectedVersion
              && x.gateAllows && x.mainCompleted && x.adaptersFit && TalkPossible(x)
  {
    o := u.NormalLocked(c, x);
    TalksGrow(old(u.log), u.log);
  }

  /** A resumed normal end is cancelled in its closing talk, which may have been spoken; the next
      one starts the talk again. */
  method TalkStartedTwice() returns (u: EndStreamSession)
    ensures u.Valid() && Talks(u.log) == 2 && ClosingsDone(u.log, 1) == 0
  {
    u := new EndStreamSession(map[1 := Session(StopFailed, 5)], []);
    CancelledInTalk(u, Command(6, 1, 5));
    CancelledInTalk(u, Command(7, 1, 5));
  }

  method CancelledInTalk(u: EndStreamSession, c: Command)
    requires u.Valid() && c.session in u.sessions && u.sessions[c.session] == Session(StopFailed, c.expectedVersion)
    requires !u.ClosingIsDone(c.session)
    modifies u
    ensures u.Valid() && c.session in u.sessions && u.sessions[c.session] == old(u.sessions)[c.session]
    ensures !u.ClosingIsDone(c.session) && Talks(u.log) == Talks(old(u.log)) + 1
  {
    u.replies := [Interrupted];
    var o := u.NormalLocked(c, WILLING);
  }
}
