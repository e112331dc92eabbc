/**
 Ending a stream, normally or in an emergency, against an environment that may answer any
 external call with anything, raise, or cancel the caller there. Commands run one at a time
 under a lock; `log` records what the use case did, in order.
*/
module StreamEnd {
  import opened Options

  datatype Status =
    | Created | Preparing | Ready | Failed | StartApproved | Starting | Live | StartFailed | Aborted
    | ClosingRequested | Closing | Stopping | Completed
    | EmergencyStopRequested | EmergencyStopping | EmergencyStopped | StopFailed

  /** The transition table of a session. */
  function Next(s: Status): set<Status> {
    match s
    case Created => {Preparing}
    case Preparing => {Ready, Failed}
    case Failed => {Preparing}
    case Ready => {Preparing, StartApproved}
    case StartApproved => {Starting}
    case Starting => {Live, StartFailed}
    case StartFailed => {Ready, Aborted}
    case Live => {ClosingRequested, EmergencyStopRequested}
    case ClosingRequested => {Closing, EmergencyStopRequested}
    case Closing => {Stopping, StopFailed, EmergencyStopRequested}
    case Stopping => {Completed, StopFailed, EmergencyStopRequested}
    case EmergencyStopRequested => {EmergencyStopping}
    case EmergencyStopping => {EmergencyStopped, StopFailed}
    case StopFailed => {Stopping, EmergencyStopRequested}
    case _ => {}
  }

  /** From the approval of an end on; a session never leaves these. */
  predicate Ending(s: Status) {
    s == ClosingRequested || s == Closing || s == Stopping || s == Completed || s == EmergencyStopRequested
    || s == EmergencyStopping || s == EmergencyStopped || s == StopFailed
  }

  predicate Over(s: Status) { s == Completed || s == EmergencyStopped }

  datatype Session = Session(status: Status, version: nat)
  datatype Mode = Normal | Emergency
  datatype External = GetObs | StopObs | GetBroadcast | CompleteBroadcast | GetStream | RunClosingTalk
  datatype Reply = Value(text: string) | Raised | Interrupted

  datatype Entry =
    | Begin(mode: Mode, session: nat)          // a command was accepted
    | Called(what: External, reply: Reply)
    | Saved(session: nat, status: Status)
    | ClosingDone(session: nat)                // the closing talk is recorded as completed
    | OutputCanceled                           // an emergency asked running output to stop

  datatype Command = Command(id: nat, session: nat, expectedVersion: nat)

  /** What the other components answer to a command: both gate decisions, whether the main
      segment is completed, whether a closing segment exists, and the adapter check. */
  datatype Context = Context(gateAllows: bool, closingGateAllows: bool, mainCompleted: bool, segmentExists: bool, adaptersFit: bool)

  datatype Step = ClosingStep | ExternalStep
  datatype Result = Done(mode: Mode) | FailedAt(mode: Mode, step: Step)
  datatype Refusal = NotFound | VersionMismatch | NotAllowed | InvalidState | MainNotCompleted | FakeAdapters
  datatype Outcome = Returned(result: Result) | Refused(reason: Refusal) | Cancelled
  datatype ClosingState = ClosingRunning | ClosingFailed | ClosingCompleted

  // ---------- Reading the log ----------

  /** The mode of the command that wrote the end of the log. */
  function ModeOf(log: seq<Entry>): Mode {
    if log == [] then Normal
    else if log[|log| - 1].Begin? then log[|log| - 1].mode
    else ModeOf(log[..|log| - 1])
  }

  /** The session of that command. */
  function SessionOf(log: seq<Entry>): nat {
    if log == [] then 0
    else if log[|log| - 1].Begin? then log[|log| - 1].session
    else SessionOf(log[..|log| - 1])
  }

  /** The last answer to `what` since the current command began. */
  function LastReading(log: seq<Entry>, what: External): Reply {
    if log == [] || log[|log| - 1].Begin? then Raised
    else if log[|log| - 1].Called? && log[|log| - 1].what == what then log[|log| - 1].reply
    else LastReading(log[..|log| - 1], what)
  }

  predicate BroadcastComplete(log: seq<Entry>) { LastReading(log, GetBroadcast) == Value("complete") }
  predicate ObsIdle(log: seq<Entry>) { LastReading(log, GetObs) == Value("idle") }
  predicate StreamStopped(log: seq<Entry>) {
    LastReading(log, GetStream) == Value("inactive") || LastReading(log, GetStream) == Value("no_data")
  }

  function ClosingsDone(log: seq<Entry>, session: nat): nat {
    if log == [] then 0
    else ClosingsDone(log[..|log| - 1], session) + if log[|log| - 1] == ClosingDone(session) then 1 else 0
  }

  /** The number of external calls. */
  function Calls(log: seq<Entry>): nat {
    if log == [] then 0 else Calls(log[..|log| - 1]) + if log[|log| - 1].Called? then 1 else 0
  }

  predicate StartsTalk(e: Entry) { e.Called? && e.what == RunClosingTalk }

  /** How often the closing talk was started. */
  function Talks(log: seq<Entry>): nat {
    if log == [] then 0 else Talks(log[..|log| - 1]) + if StartsTalk(log[|log| - 1]) then 1 else 0
  }

  /** Was the closing talk of this session ever started? */
  predicate TalkedIn(log: seq<Entry>, session: nat) {
    log != [] && (TalkedIn(log[..|log| - 1], session) || (StartsTalk(log[|log| - 1]) && SessionOf(log[..|log| - 1]) == session))
  }

  lemma {:induction false} TalksGrow(before: seq<Entry>, log: seq<Entry>)
    requires before <= log
    ensures Talks(before) <= Talks(log)
    ensures Talks(before) < Talks(log) <==> exists i :: |before| <= i < |log| && StartsTalk(log[i])
  {
    if before < log {
      var front := log[..|log| - 1];
      TalksGrow(before, front);
      assert forall i | 0 <= i < |front| :: front[i] == log[i];
    } else {
      assert before == log;
    }
  }

  /** More calls means a call among the new entries. */
  lemma {:induction false} CallsGrow(before: seq<Entry>, log: seq<Entry>)
    requires before <= log
    ensures Calls(before) <= Calls(log)
    ensures Calls(before) < Calls(log) <==> exists i :: |before| <= i < |log| && log[i].Called?
  {
    if before < log {
      var front := log[..|log| - 1];
      CallsGrow(before, front);
      assert forall i | 0 <= i < |front| :: front[i] == log[i];
    } else {
      assert before == log;
    }
  }

  predicate EndedIn(log: seq<Entry>, session: nat) {
    exists i :: 0 <= i < |log| && log[i].Saved? && log[i].session == session && Over(log[i].status)
  }

  /** May `e` follow `before`? */
  predicate Legal(before: seq<Entry>, e: Entry) {
    match e
    case Begin(_, session) => !EndedIn(before, session)
    case Called(what, _) =>
      && (what == StopObs && ModeOf(before) == Normal ==> BroadcastComplete(before))
      && (what == RunClosingTalk ==> ClosingsDone(before, SessionOf(before)) == 0)
    case Saved(_, status) => Over(status) ==> BroadcastComplete(before) && ObsIdle(before) && StreamStopped(before)
    case ClosingDone(session) => ClosingsDone(before, session) == 0 && LastReading(before, RunClosingTalk) == Value("completed")
    case OutputCanceled => true
  }

  predicate LegalAt(log: seq<Entry>, i: nat)
    requires i < |log|
  {
    Legal(log[..i], log[i])
  }

  ghost predicate Safe(log: seq<Entry>) { forall i: nat | i < |log| :: LegalAt(log, i) }

  lemma SafeSnoc(log: seq<Entry>, e: Entry)
    requires Safe(log) && Legal(log, e)
    ensures Safe(log + [e])
  {
    forall i: nat | i < |log + [e]| ensures LegalAt(log + [e], i) {
      assert (log + [e])[..i] == log[..i];
      if i < |log| { assert LegalAt(log, i); } else { assert log[..i] == log; }
    }
  }

  lemma SafeFront(log: seq<Entry>)
    requires Safe(log) && log != []
    ensures Safe(log[..|log| - 1]) && Legal(log[..|log| - 1], log[|log| - 1])
  {
    var front := log[..|log| - 1];
    assert LegalAt(log, |log| - 1);
    forall i: nat | i < |front| ensures LegalAt(front, i) {
      assert LegalAt(log, i) && front[..i] == log[..i];
    }
  }

  /** What `Safe` says about every place in the log: a final status is saved only after the
      command itself last read broadcast complete, OBS idle and the stream inactive; a normal
      end stops OBS only after reading broadcast complete; the closing talk is not started again
      once it was recorded as completed; and an ended session is never touched again. */
  lemma SafeMeans(log: seq<Entry>, i: nat)
    requires Safe(log) && i < |log|
    ensures log[i].Saved? && Over(log[i].status) ==>
              BroadcastComplete(log[..i]) && ObsIdle(log[..i]) && StreamStopped(log[..i])
    ensures log[i].Called? && log[i].what == StopObs && ModeOf(log[..i]) == Normal ==> BroadcastComplete(log[..i])
    ensures log[i].Called? && log[i].what == RunClosingTalk ==> ClosingsDone(log[..i], SessionOf(log[..i])) == 0
    ensures log[i].ClosingDone? ==> ClosingsDone(log[..i], log[i].session) == 0
    ensures log[i].Begin? ==> !EndedIn(log[..i], log[i].session)
  {
    assert LegalAt(log, i);
  }

  /** The closing talk is recorded as completed at most once per session. A talk whose caller
      was cancelled before the recording leaves no record, spoken or not, and is run again. */
  lemma {:induction false} ClosingAtMostOnce(log: seq<Entry>, session: nat)
    requires Safe(log)
    ensures ClosingsDone(log, session) <= 1
  {
    if log != [] {
      SafeFront(log);
      ClosingAtMostOnce(log[..|log| - 1], session);
    }
  }

  // ---------- What a command may do ----------

  /** Why a normal end is refused, in the order of the checks. */
  function NormalRefusal(sessions: map<nat, Session>, c: Command, x: Context): Option<Refusal> {
    if c.session !in sessions then Some(NotFound)
    else if sessions[c.session].version != c.expectedVersion then Some(VersionMismatch)
    else if !x.gateAllows then Some(NotAllowed)
    else if sessions[c.session].status != Live && sessions[c.session].status != StopFailed then Some(InvalidState)
    else if !x.mainCompleted then Some(MainNotCompleted)
    else if !x.adaptersFit then Some(FakeAdapters)
    else None
  }

  /** The reason a caller gets is the first that applies. */
  lemma NormalRefusedFor(sessions: map<nat, Session>, c: Command, x: Context)
    ensures var r, s := NormalRefusal(sessions, c, x), if c.session in sessions then sessions[c.session] else Session(Created, 0);
      var known := c.session in sessions;
      var current := known && s.version == c.expectedVersion;
      var open := current && x.gateAllows && s.status in {Live, StopFailed};
      && (r == Some(NotFound) <==> !known)
      && (r == Some(VersionMismatch) <==> known && s.version != c.expectedVersion)
      && (r == Some(NotAllowed) <==> current && !x.gateAllows)
      && (r == Some(InvalidState) <==> current && x.gateAllows && s.status !in {Live, StopFailed})
      && (r == Some(MainNotCompleted) <==> open && !x.mainCompleted)
      && (r == Some(FakeAdapters) <==> open && x.mainCompleted && !x.adaptersFit)
      && (r == None <==> open && x.mainCompleted && x.adaptersFit)
  {
  }

  predicate IsEnding(s: Status) { s == ClosingRequested || s == Closing || s == Stopping }

  function EmergencyRefusal(sessions: map<nat, Session>, c: Command, x: Context): Option<Refusal> {
    if c.session !in sessions then Some(NotFound)
    else
      var s := sessions[c.session];
      if s.version != c.expectedVersion && !IsEnding(s.status) then Some(VersionMismatch)
      else if !x.gateAllows then Some(NotAllowed)
      else if s.status != Live && !IsEnding(s.status) && s.status != StopFailed then Some(InvalidState)
      else if !x.adaptersFit then Some(FakeAdapters)
      else None
  }

  lemma EmergencyRefusedFor(sessions: map<nat, Session>, c: Command, x: Context)
    ensures var r, s := EmergencyRefusal(sessions, c, x), if c.session in sessions then sessions[c.session] else Session(Created, 0);
      var known := c.session in sessions;
      var current := known && (s.version == c.expectedVersion || s.status in {ClosingRequested, Closing, Stopping});
      var open := current && x.gateAllows && s.status in {Live, ClosingRequested, Closing, Stopping, StopFailed};
      && (r == Some(NotFound) <==> !known)
      && (r == Some(VersionMismatch) <==> known && !current)
      && (r == Some(NotAllowed) <==> current && !x.gateAllows)
      && (r == Some(InvalidState) <==> current && x.gateAllows && !open)
      && (r == Some(FakeAdapters) <==> open && !x.adaptersFit)
      && (r == None <==> open && x.adaptersFit)
  {
  }

  lemma AcceptedMayStop(sessions: map<nat, Session>, c: Command, x: Context)
    requires EmergencyRefusal(sessions, c, x).None?
    ensures c.session in sessions && EmergencyStopRequested in Next(sessions[c.session].status)
  {
  }

  predicate TalkPossible(x: Context) { x.closingGateAllows && x.segmentExists }

  /** Does the normal end, holding the lock, call anything outside? */
  predicate NormalCallsOut(sessions: map<nat, Session>, closingDone: bool, c: Command, x: Context) {
    NormalRefusal(sessions, c, x).None? && (closingDone || TalkPossible(x))
  }

  const TALK_FAILED := Returned(FailedAt(Normal, ClosingStep))

  /** How a normal end goes on after its closing talk: `None` when it does. */
  function AfterTalk(x: Context, reply: Reply): Option<Outcome> {
    if !TalkPossible(x) then Some(TALK_FAILED)
    else if reply == Value("completed") then None
    else if reply == Interrupted then Some(Cancelled)
    else Some(TALK_FAILED)
  }

  /** Does it start the closing talk? */
  predicate NormalTalks(sessions: map<nat, Session>, closingDone: bool, c: Command, x: Context) {
    NormalRefusal(sessions, c, x).None? && !closingDone && TalkPossible(x)
  }

  /** The session after an accepted normal end, by outcome. */
  predicate NormalEffect(before: Session, after: Session, o: Outcome) {
    var closing := if before.status == Live then Session(Closing, before.version + 2) else before;
    match o
    case Refused(_) => false
    case Cancelled => after == closing || after == Session(Stopping, closing.version + 1)
    case Returned(Done(mode)) => mode == Normal && after == Session(Completed, closing.version + 2)
    case Returned(FailedAt(mode, ClosingStep)) =>
      mode == Normal && after == if before.status == Live then Session(StopFailed, closing.version + 1) else before
    case Returned(FailedAt(mode, ExternalStep)) => mode == Normal && after == Session(StopFailed, closing.version + 2)
  }

  /** `NormalEffect` from where the session is closing or resumed. */
  predicate CloseEffect(before: Session, after: Session, o: Outcome) {
    match o
    case Refused(_) => false
    case Cancelled => after == before || after == Session(Stopping, before.version + 1)
    case Returned(Done(mode)) => mode == Normal && after == Session(Completed, before.version + 2)
    case Returned(FailedAt(mode, ClosingStep)) =>
      mode == Normal && after == if before.status == StopFailed then before else Session(StopFailed, before.version + 1)
    case Returned(FailedAt(mode, ExternalStep)) => mode == Normal && after == Session(StopFailed, before.version + 2)
  }

  lemma FromBeginning(before: Session, begun: Session, after: Session, o: Outcome)
    requires before.status == Live || before.status == StopFailed
    requires begun == if before.status == Live then Session(Closing, before.version + 2) else before
    requires CloseEffect(begun, after, o)
    ensures NormalEffect(before, after, o) && after.version >= before.version
  {
  }

  /** The session after an accepted emergency stop, by outcome. */
  predicate EmergencyEffect(before: Session, after: Session, o: Outcome) {
    match o
    case Refused(_) => false
    case Cancelled => after == Session(EmergencyStopping, before.version + 2)
    case Returned(Done(mode)) => mode == Emergency && after == Session(EmergencyStopped, before.version + 3)
    case Returned(FailedAt(mode, step)) =>
      mode == Emergency && step == ExternalStep && after == Session(StopFailed, before.version + 3)
  }

  // ---------- Which normal end an emergency cancels ----------

  /** Calls of `normal` come and go; `_normal_task` points to at most one of them. */
  datatype TaskEvent = Entered(task: nat) | Left(task: nat)

  /** `_normal_task` after these events. */
  function Pointer(events: seq<TaskEvent>): Option<nat> {
    if events == [] then None
    else
      var before, e := Pointer(events[..|events| - 1]), events[|events| - 1];
      match e
      case Entered(task) => Some(task)
      case Left(task) => if before == Some(task) then None else before
  }

  /** An emergency arriving now cancels the normal end `t`, running or waiting, exactly when no
      other normal end has arrived since: a later one hides it, even after it has gone again. */
  lemma {:induction false} CancelledExactly(events: seq<TaskEvent>, k: nat)
    requires k < |events| && events[k].Entered?
    requires forall j | 0 <= j < |events| && j != k :: events[j] != Entered(events[k].task)
    requires forall j | k < j < |events| :: events[j] != Left(events[k].task)
    ensures Pointer(events) == Some(events[k].task) <==> forall j | k < j < |events| :: !events[j].Entered?
  {
    var n := |events| - 1;
    if k < n {
      var front := events[..n];
      CancelledExactly(front, k);
      assert forall j | 0 <= j < n :: front[j] == events[j];
      assert (forall j | k < j < |events| :: !events[j].Entered?) <==>
             (forall j | k < j < n :: !front[j].Entered?) && !events[n].Entered?;
    }
  }

  // ---------- The use case ----------

  /** The environment's next answer; when it has none left the caller is cancelled. */
  function NextReply(replies: seq<Reply>): Reply {
    if replies == [] then Interrupted else replies[0]
  }

  function Rest(replies: seq<Reply>): seq<Reply> { if replies == [] then [] else replies[1..] }

  // ---------- The calls of a command, reply by reply ----------

  /** Read with `get`, bring about `goal` with `act` unless that was read, and read again. */
  function Bring(get: External, act: External, goal: string, replies: seq<Reply>): seq<Entry> {
    var a, b, c := NextReply(replies), NextReply(Rest(replies)), NextReply(Rest(Rest(replies)));
    if !a.Value? then [Called(get, a)]
    else if a == Value(goal) then [Called(get, a)] + [Called(get, b)]
    else if !b.Value? then [Called(get, a)] + [Called(act, b)]
    else [Called(get, a)] + [Called(act, b)] + [Called(get, c)]
  }

  lemma Joined(log: seq<Entry>, a: seq<Entry>, b: seq<Entry>)
    ensures (log + a) + b == log + (a + b)
    ensures log + [] == log && a + [] == a && [] + b == b
  {
  }

  /** What one more entry changes. */
  lemma SnocFacts(log: seq<Entry>, e: Entry)
    ensures var after := log + [e];
      && ModeOf(after) == (if e.Begin? then e.mode else ModeOf(log))
      && SessionOf(after) == (if e.Begin? then e.session else SessionOf(log))
      && Calls(after) == Calls(log) + (if e.Called? then 1 else 0)
      && Talks(after) == Talks(log) + (if StartsTalk(e) then 1 else 0)
      && (!e.Begin? ==> forall w :: LastReading(after, w) == if e.Called? && e.what == w then e.reply else LastReading(log, w))
  {
    assert (log + [e])[..|log|] == log;
  }

  /** Calls were made in between, none of them the closing talk. */
  predicate OnlyCalls(before: seq<Entry>, after: seq<Entry>) {
    ModeOf(after) == ModeOf(before) && SessionOf(after) == SessionOf(before)
    && Calls(after) > Calls(before) && Talks(after) == Talks(before)
  }

  lemma OneCall(log: seq<Entry>, what: External, r: Reply)
    requires what != RunClosingTalk
    ensures OnlyCalls(log, log + [Called(what, r)])
    ensures forall w :: LastReading(log + [Called(what, r)], w) == if w == what then r else LastReading(log, w)
  {
    SnocFacts(log, Called(what, r));
  }

  /** The same with the last readings of `get` and of everything but `get` and `act`. */
  predicate OnlyThese(before: seq<Entry>, after: seq<Entry>, get: External, act: External, last: Reply) {
    && OnlyCalls(before, after) && (last.Value? ==> LastReading(after, get) == last)
    && forall w | w != get && w != act :: LastReading(after, w) == LastReading(before, w)
  }

  lemma TwoCalls(log: seq<Entry>, get: External, act: External, first: Entry, second: Entry)
    requires get != act && get != RunClosingTalk && act != RunClosingTalk
    requires first.Called? && first.what == get && second.Called? && (second.what == get || second.what == act)
    ensures OnlyThese(log, log + ([first] + [second]), get, act, if second.what == get then second.reply else Raised)
  {
    OneCall(log, get, first.reply);
    OneCall(log + [first], second.what, second.reply);
    Joined(log, [first], [second]);
  }

  lemma ThreeCalls(log: seq<Entry>, get: External, act: External, a: Reply, b: Reply, c: Reply)
    requires get != act && get != RunClosingTalk && act != RunClosingTalk
    ensures OnlyThese(log, log + ([Called(get, a)] + [Called(act, b)] + [Called(get, c)]), get, act, c)
  {
    var two := [Called(get, a)] + [Called(act, b)];
    TwoCalls(log, get, act, Called(get, a), Called(act, b));
    OneCall(log + two, get, c);
    Joined(log, two, [Called(get, c)]);
  }

  /** What such calls change. */
  lemma BringFacts(log: seq<Entry>, get: External, act: External, goal: string, replies: seq<Reply>)
    requires get != act && get != RunClosingTalk && act != RunClosingTalk
    ensures OnlyThese(log, log + Bring(get, act, goal, replies), get, act, Brought(goal, replies))
  {
    var a, b, c := NextReply(replies), NextReply(Rest(replies)), NextReply(Rest(Rest(replies)));
    if !a.Value? {
      OneCall(log, get, a);
    } else if a == Value(goal) {
      TwoCalls(log, get, act, Called(get, a), Called(get, b));
    } else if !b.Value? {
      TwoCalls(log, get, act, Called(get, a), Called(act, b));
    } else {
      ThreeCalls(log, get, act, a, b, c);
    }
  }

  /** The last of its replies, and the replies that are left. */
  function Brought(goal: string, replies: seq<Reply>): Reply {
    var a, b, c := NextReply(replies), NextReply(Rest(replies)), NextReply(Rest(Rest(replies)));
    if !a.Value? then a else if a == Value(goal) || !b.Value? then b else c
  }

  function AfterBring(goal: string, replies: seq<Reply>): seq<Reply> {
    var a, b := NextReply(replies), NextReply(Rest(replies));
    if !a.Value? then Rest(replies) else if a == Value(goal) || !b.Value? then Rest(Rest(replies)) else Rest(Rest(Rest(replies)))
  }

  /** Anything but `goal` is a failure. */
  function Strict(r: Reply, goal: string): Reply { if r.Value? && r != Value(goal) then Raised else r }

  function BringObs(replies: seq<Reply>): seq<Entry> { Bring(GetObs, StopObs, "idle", replies) }
  function BringBroadcast(replies: seq<Reply>): seq<Entry> { Bring(GetBroadcast, CompleteBroadcast, "complete", replies) }

  /** The reading of the stream, and the verdict on all. */
  function StreamVerdict(obs: Reply, stream: Reply): Reply {
    if stream.Value? && (obs != Value("idle") || (stream.text != "inactive" && stream.text != "no_data")) then Raised else stream
  }

  /** Two such steps and the reading of the stream, each if the one before went well. */
  function InTurn(first: seq<Entry>, ok: bool, second: seq<Entry>, both: bool, stream: Entry): seq<Entry> {
    if !ok then first else if !both then first + second else first + second + [stream]
  }

  /** What stopping everything calls: an emergency stops OBS first, a normal end last. */
  function StopTrace(mode: Mode, replies: seq<Reply>): seq<Entry> {
    match mode
    case Normal =>
      var left := AfterBring("complete", replies);
      InTurn(BringBroadcast(replies), Brought("complete", replies) == Value("complete"), BringObs(left), Brought("idle", left).Value?,
             Called(GetStream, NextReply(AfterBring("idle", left))))
    case Emergency =>
      var left := AfterBring("idle", replies);
      InTurn(BringObs(replies), Brought("idle", replies).Value?, BringBroadcast(left), Brought("complete", left) == Value("complete"),
             Called(GetStream, NextReply(AfterBring("complete", left))))
  }

  function StopReply(mode: Mode, replies: seq<Reply>): Reply {
    match mode
    case Normal =>
      var left := AfterBring("complete", replies);
      var broadcast, obs := Strict(Brought("complete", replies), "complete"), Brought("idle", left);
      if !broadcast.Value? then broadcast
      else if !obs.Value? then obs
      else StreamVerdict(obs, NextReply(AfterBring("idle", left)))
    case Emergency =>
      var left := AfterBring("idle", replies);
      var obs, broadcast := Brought("idle", replies), Strict(Brought("complete", left), "complete");
      if !obs.Value? then obs
      else if !broadcast.Value? then broadcast
      else StreamVerdict(obs, NextReply(AfterBring("complete", left)))
  }

  /** What stopping everything changes; if it goes well, everything was read as stopped. */
  lemma StopFacts(log: seq<Entry>, mode: Mode, replies: seq<Reply>)
    ensures OnlyCalls(log, log + StopTrace(mode, replies))
    ensures StopReply(mode, replies).Value? ==>
              var after := log + StopTrace(mode, replies); BroadcastComplete(after) && ObsIdle(after) && StreamStopped(after)
  {
    if mode == Normal { NormalStopFacts(log, replies); } else { EmergencyStopFacts(log, replies); }
  }

  lemma InTurnFacts(log: seq<Entry>, first: seq<Entry>, ok: bool, second: seq<Entry>, both: bool, stream: Entry)
    requires OnlyCalls(log, log + first) && OnlyCalls(log + first, log + first + second) && stream.Called? && stream.what == GetStream
    ensures OnlyCalls(log, log + InTurn(first, ok, second, both, stream))
    ensures ok && both ==>
              var before, after := log + first + second, log + InTurn(first, ok, second, both, stream);
              && LastReading(after, GetStream) == stream.reply
              && LastReading(after, GetObs) == LastReading(before, GetObs)
              && LastReading(after, GetBroadcast) == LastReading(before, GetBroadcast)
  {
    Joined(log, first, second);
    Joined(log, first + second, [stream]);
    SnocFacts(log + first + second, stream);
  }

  lemma NormalStopFacts(log: seq<Entry>, replies: seq<Reply>)
    ensures OnlyCalls(log, log + StopTrace(Normal, replies))
    ensures StopReply(Normal, replies).Value? ==>
              var after := log + StopTrace(Normal, replies); BroadcastComplete(after) && ObsIdle(after) && StreamStopped(after)
  {
    var left := AfterBring("complete", replies);
    var first, second, stream := BringBroadcast(replies), BringObs(left), Called(GetStream, NextReply(AfterBring("idle", left)));
    BringFacts(log, GetBroadcast, CompleteBroadcast, "complete", replies);
    BringFacts(log + first, GetObs, StopObs, "idle", left);
    InTurnFacts(log, first, Brought("complete", replies) == Value("complete"), second, Brought("idle", left).Value?, stream);
  }

  lemma EmergencyStopFacts(log: seq<Entry>, replies: seq<Reply>)
    ensures OnlyCalls(log, log + StopTrace(Emergency, replies))
    ensures StopReply(Emergency, replies).Value? ==>
              var after := log + StopTrace(Emergency, replies); BroadcastComplete(after) && ObsIdle(after) && StreamStopped(after)
  {
    var left := AfterBring("idle", replies);
    var first, second, stream := BringObs(replies), BringBroadcast(left), Called(GetStream, NextReply(AfterBring("complete", left)));
    BringFacts(log, GetObs, StopObs, "idle", replies);
    BringFacts(log + first, GetBroadcast, CompleteBroadcast, "complete", left);
    InTurnFacts(log, first, Brought("idle", replies).Value?, second, Brought("complete", left) == Value("complete"), stream);
  }

  /** How stopping everything ends a command, by its reply. */
  function Concluded(mode: Mode, r: Reply): Outcome {
    match r
    case Value(_) => Returned(Done(mode))
    case Raised => Returned(FailedAt(mode, ExternalStep))
    case Interrupted => Cancelled
  }

  function Conclusion(mode: Mode, session: nat, r: Reply): seq<Entry> {
    match r
    case Value(_) => [Saved(session, Final(mode))]
    case Raised => [Saved(session, StopFailed)]
    case Interrupted => []
  }

  function StopOutcome(mode: Mode, replies: seq<Reply>): Outcome { Concluded(mode, StopReply(mode, replies)) }

  function ExternalTrace(mode: Mode, session: nat, replies: seq<Reply>): seq<Entry> {
    StopTrace(mode, replies) + Conclusion(mode, session, StopReply(mode, replies))
  }

  function TalkTrace(x: Context, session: nat, reply: Reply): seq<Entry> {
    if !TalkPossible(x) then []
    else [Called(RunClosingTalk, reply)] + if reply == Value("completed") then [ClosingDone(session)] else []
  }

  /** What is saved when the talk ends the command; a resumed session stays as it is. */
  function TalkEnd(resumed: bool, session: nat, o: Option<Outcome>): seq<Entry> {
    if o == Some(TALK_FAILED) && !resumed then [Saved(session, StopFailed)] else []
  }

  function StoppingTrace(session: nat, replies: seq<Reply>): seq<Entry> {
    [Saved(session, Stopping)] + ExternalTrace(Normal, session, replies)
  }

  /** A normal end from where it is closing or resumed. */
  function CloseTrace(resumed: bool, done: bool, x: Context, session: nat, replies: seq<Reply>): seq<Entry> {
    if done then StoppingTrace(session, replies)
    else
      var o := AfterTalk(x, NextReply(replies));
      TalkTrace(x, session, NextReply(replies)) + TalkEnd(resumed, session, o)
      + if o.None? then StoppingTrace(session, Rest(replies)) else []
  }

  /** Does a normal end get past its closing talk? */
  predicate Past(done: bool, x: Context, replies: seq<Reply>) { done || AfterTalk(x, NextReply(replies)).None? }

  function NormalOutcome(done: bool, x: Context, replies: seq<Reply>): Outcome {
    if done then StopOutcome(Normal, replies)
    else match AfterTalk(x, NextReply(replies)) case None => StopOutcome(Normal, Rest(replies)) case Some(o) => o
  }

  function NormalOpening(resumed: bool, session: nat): seq<Entry> {
    [Begin(Normal, session)] + if resumed then [] else [Saved(session, ClosingRequested)] + [Saved(session, Closing)]
  }

  function NormalTrace(resumed: bool, done: bool, x: Context, session: nat, replies: seq<Reply>): seq<Entry> {
    NormalOpening(resumed, session) + CloseTrace(resumed, done, x, session, replies)
  }

  function EmergencyOpening(session: nat): seq<Entry> {
    [Begin(Emergency, session)] + [Saved(session, EmergencyStopRequested)] + [OutputCanceled] + [Saved(session, EmergencyStopping)]
  }

  /** No calls were made, and no new command began. */
  predicate NoCalls(before: seq<Entry>, after: seq<Entry>) {
    ModeOf(after) == ModeOf(before) && SessionOf(after) == SessionOf(before)
    && Calls(after) == Calls(before) && Talks(after) == Talks(before)
  }

  lemma SavedFacts(log: seq<Entry>, session: nat, status: Status)
    ensures NoCalls(log, log + [Saved(session, status)])
    ensures forall w :: LastReading(log + [Saved(session, status)], w) == LastReading(log, w)
  {
    SnocFacts(log, Saved(session, status));
  }

  lemma NormalOpeningFacts(log: seq<Entry>, resumed: bool, session: nat)
    ensures var after := log + NormalOpening(resumed, session);
      ModeOf(after) == Normal && SessionOf(after) == session && Calls(after) == Calls(log) && Talks(after) == Talks(log)
  {
    var begin, requested, closing := [Begin(Normal, session)], [Saved(session, ClosingRequested)], [Saved(session, Closing)];
    SnocFacts(log, begin[0]);
    SavedFacts(log + begin, session, ClosingRequested);
    SavedFacts(log + begin + requested, session, Closing);
    Joined(log + begin, requested, closing);
    Joined(log, begin, requested + closing);
  }

  lemma EmergencyOpeningFacts(log: seq<Entry>, session: nat)
    ensures var after := log + EmergencyOpening(session);
      ModeOf(after) == Emergency && SessionOf(after) == session && Calls(after) == Calls(log) && Talks(after) == Talks(log)
  {
    var begin, requested, stopping := [Begin(Emergency, session)], [Saved(session, EmergencyStopRequested)], [Saved(session, EmergencyStopping)];
    SnocFacts(log, begin[0]);
    SavedFacts(log + begin, session, EmergencyStopRequested);
    Joined(log, begin, requested);
    SnocFacts(log + (begin + requested), OutputCanceled);
    Joined(log, begin + requested, [OutputCanceled]);
    SavedFacts(log + (begin + requested + [OutputCanceled]), session, EmergencyStopping);
    Joined(log, begin + requested + [OutputCanceled], stopping);
  }

  /** The talk was started or not, and nothing else was called. */
  predicate OnlyTalk(before: seq<Entry>, after: seq<Entry>, talk: bool) {
    ModeOf(after) == ModeOf(before) && SessionOf(after) == SessionOf(before)
    && Calls(after) == Calls(before) + (if talk then 1 else 0) && Talks(after) == Talks(before) + (if talk then 1 else 0)
  }

  lemma TalkFacts(log: seq<Entry>, x: Context, session: nat, reply: Reply)
    ensures OnlyTalk(log, log + TalkTrace(x, session, reply), TalkPossible(x))
  {
    Joined(log, [Called(RunClosingTalk, reply)], [ClosingDone(session)]);
    if TalkPossible(x) {
      SnocFacts(log, Called(RunClosingTalk, reply));
      SnocFacts(log + [Called(RunClosingTalk, reply)], ClosingDone(session));
      assert TalkTrace(x, session, reply) == [Called(RunClosingTalk, reply)] + if reply == Value("completed") then [ClosingDone(session)] else [];
    }
  }

  lemma TalkPartFacts(log: seq<Entry>, resumed: bool, x: Context, session: nat, reply: Reply)
    ensures OnlyTalk(log, log + (TalkTrace(x, session, reply) + TalkEnd(resumed, session, AfterTalk(x, reply))), TalkPossible(x))
  {
    var talk := TalkTrace(x, session, reply);
    TalkFacts(log, x, session, reply);
    SavedFacts(log + talk, session, StopFailed);
    Joined(log, talk, [Saved(session, StopFailed)]);
    Joined(log, talk, []);
  }

  lemma ExternalFacts(log: seq<Entry>, mode: Mode, session: nat, replies: seq<Reply>)
    ensures OnlyCalls(log, log + ExternalTrace(mode, session, replies))
  {
    StopFacts(log, mode, replies);
    ConclusionFacts(log + StopTrace(mode, replies), mode, session, StopReply(mode, replies));
    Joined(log, StopTrace(mode, replies), Conclusion(mode, session, StopReply(mode, replies)));
  }

  lemma ConclusionFacts(log: seq<Entry>, mode: Mode, session: nat, r: Reply)
    ensures NoCalls(log, log + Conclusion(mode, session, r))
  {
    SavedFacts(log, session, if r.Value? then Final(mode) else StopFailed);
    Joined(log, [], []);
  }

  lemma StoppingFacts(log: seq<Entry>, session: nat, replies: seq<Reply>)
    ensures OnlyCalls(log, log + StoppingTrace(session, replies))
  {
    SavedFacts(log, session, Stopping);
    ExternalFacts(log + [Saved(session, Stopping)], Normal, session, replies);
    Joined(log, [Saved(session, Stopping)], ExternalTrace(Normal, session, replies));
  }

  lemma CloseFacts(log: seq<Entry>, resumed: bool, done: bool, x: Context, session: nat, replies: seq<Reply>)
    ensures var after := log + CloseTrace(resumed, done, x, session, replies);
      && (Calls(after) > Calls(log) <==> done || TalkPossible(x))
      && Talks(after) == Talks(log) + (if !done && TalkPossible(x) then 1 else 0)
  {
    if done {
      StoppingFacts(log, session, replies);
    } else {
      var reply := NextReply(replies);
      var talk := TalkTrace(x, session, reply) + TalkEnd(resumed, session, AfterTalk(x, reply));
      TalkPartFacts(log, resumed, x, session, reply);
      AfterTalkFacts(log, talk, AfterTalk(x, reply).None?, session, Rest(replies), TalkPossible(x));
    }
  }

  lemma AfterTalkFacts(log: seq<Entry>, talk: seq<Entry>, on: bool, session: nat, replies: seq<Reply>, possible: bool)
    requires OnlyTalk(log, log + talk, possible) && (on ==> possible)
    ensures var after := log + (talk + if on then StoppingTrace(session, replies) else []);
            (Calls(after) > Calls(log) <==> possible) && Talks(after) == Talks(log) + if possible then 1 else 0
  {
    StoppingFacts(log + talk, session, replies);
    Joined(log, talk, StoppingTrace(session, replies));
    Joined(log, talk, []);
  }

  /** The calls of a normal end: some exactly when the talk is done or possible, and the closing
      talk exactly when it is possible and not done. */
  lemma NormalFacts(log: seq<Entry>, resumed: bool, done: bool, x: Context, session: nat, replies: seq<Reply>)
    ensures var after := log + NormalTrace(resumed, done, x, session, replies);
      && (Calls(after) > Calls(log) <==> done || TalkPossible(x))
      && Talks(after) == Talks(log) + (if !done && TalkPossible(x) then 1 else 0)
  {
    NormalOpeningFacts(log, resumed, session);
    CloseFacts(log + NormalOpening(resumed, session), resumed, done, x, session, replies);
    Joined(log, NormalOpening(resumed, session), CloseTrace(resumed, done, x, session, replies));
  }

  /** An emergency stop always calls out, and never starts the closing talk. */
  lemma EmergencyFacts(log: seq<Entry>, session: nat, replies: seq<Reply>)
    ensures var after := log + (EmergencyOpening(session) + ExternalTrace(Emergency, session, replies));
            Calls(after) > Calls(log) && Talks(after) == Talks(log)
  {
    EmergencyOpeningFacts(log, session);
    ExternalFacts(log + EmergencyOpening(session), Emergency, session, replies);
    Joined(log, EmergencyOpening(session), ExternalTrace(Emergency, session, replies));
  }

  // ---------- Transitions ----------

  /** One transition saved: the new status, one version up. */
  function Moved(sessions: map<nat, Session>, session: nat, status: Status): map<nat, Session>
    requires session in sessions
  {
    sessions[session := Session(status, sessions[session].version + 1)]
  }

  lemma MovedTwice(sessions: map<nat, Session>, session: nat, first: Status, second: Status)
    requires session in sessions
    ensures Moved(Moved(sessions, session, first), session, second)
         == sessions[session := Session(second, sessions[session].version + 2)]
  {
  }

  /** The sessions after a normal end that got past its closing talk. */
  function Stopped(sessions: map<nat, Session>, session: nat, o: Outcome): map<nat, Session>
    requires session in sessions
  {
    var stopping := Moved(sessions, session, Stopping);
    if o.Cancelled? then stopping else Moved(stopping, session, if o == Returned(Done(Normal)) then Completed else StopFailed)
  }

  lemma StoppedEffect(sessions: map<nat, Session>, session: nat, replies: seq<Reply>)
    requires session in sessions
    ensures var o := StopOutcome(Normal, replies);
      var after := Stopped(sessions, session, o);
      && session in after && after == sessions[session := after[session]] && CloseEffect(sessions[session], after[session], o)
      && after[session].version > sessions[session].version && (o.Cancelled? ==> after[session].status == Stopping)
  {
    MovedTwice(sessions, session, Stopping, Completed);
    MovedTwice(sessions, session, Stopping, StopFailed);
  }

  /** The sessions after a normal end that did not. */
  function TalkEnded(sessions: map<nat, Session>, session: nat, o: Option<Outcome>): map<nat, Session>
    requires session in sessions
  {
    if o == Some(TALK_FAILED) && sessions[session].status == Closing then Moved(sessions, session, StopFailed) else sessions
  }

  lemma TalkEndedEffect(sessions: map<nat, Session>, session: nat, x: Context, reply: Reply)
    requires session in sessions && (sessions[session].status == Closing || sessions[session].status == StopFailed)
    ensures AfterTalk(x, reply).Some? ==>
              var after := TalkEnded(sessions, session, AfterTalk(x, reply));
              session in after && after == sessions[session := after[session]]
              && CloseEffect(sessions[session], after[session], AfterTalk(x, reply).value) && after[session].status != Stopping
  {
  }

  /** The sessions after an emergency stop. */
  function StoppedInEmergency(sessions: map<nat, Session>, session: nat, o: Outcome): map<nat, Session>
    requires session in sessions
  {
    var begun := sessions[session := Session(EmergencyStopping, sessions[session].version + 2)];
    if o.Cancelled? then begun else Moved(begun, session, if o == Returned(Done(Emergency)) then EmergencyStopped else StopFailed)
  }

  lemma EmergencyStoppedEffect(sessions: map<nat, Session>, session: nat, replies: seq<Reply>)
    requires session in sessions
    ensures var o := StopOutcome(Emergency, replies);
      var after := StoppedInEmergency(sessions, session, o);
      session in after && after == sessions[session := after[session]] && EmergencyEffect(sessions[session], after[session], o)
  {
  }

  /** The status that a mode ends in. */
  function Final(mode: Mode): Status { if mode == Normal then Completed else EmergencyStopped }

  predicate DoneIn(closing: map<nat, ClosingState>, session: nat) {
    session in closing && closing[session] == ClosingCompleted
  }

  class EndStreamSession {
    var sessions: map<nat, Session>
    var results: map<nat, Result>
    var closing: map<nat, ClosingState>
    var normalTask: Option<nat>
    var replies: seq<Reply>              // what the environment is going to answer
    ghost var log: seq<Entry>
    ghost var taskEvents: seq<TaskEvent>

    predicate ClosingIsDone(session: nat)
      reads this`closing
    {
      DoneIn(closing, session)
    }

    ghost predicate Valid()
      reads this
    {
      && Safe(log)
      && (forall s {:trigger ClosingsDone(log, s)} :: ClosingsDone(log, s) == if ClosingIsDone(s) then 1 else 0)
      && (forall s {:trigger EndedIn(log, s)} :: EndedIn(log, s) ==> s in sessions && Over(sessions[s].status))
      && (forall s {:trigger TalkedIn(log, s)} :: TalkedIn(log, s) ==> s in sessions && Ending(sessions[s].status))
      && normalTask == Pointer(taskEvents)
    }

    constructor (sessions: map<nat, Session>, replies: seq<Reply>)
      ensures Valid() && this.sessions == sessions && this.replies == replies
      ensures log == [] && results == map[] && closing == map[] && taskEvents == []
    {
      this.sessions, this.replies := sessions, replies;
      results, closing, normalTask, log, taskEvents := map[], map[], None, [], [];
    }

    ghost method Record(e: Entry)
      requires Safe(log) && Legal(log, e)
      modifies this`log
      ensures log == old(log) + [e] && Safe(log)
      ensures forall s :: EndedIn(log, s) <==> EndedIn(old(log), s) || (e.Saved? && e.session == s && Over(e.status))
      ensures forall s :: ClosingsDone(log, s) == ClosingsDone(old(log), s) + if e == ClosingDone(s) then 1 else 0
      ensures forall s :: TalkedIn(log, s) <==> TalkedIn(old(log), s) || (StartsTalk(e) && SessionOf(old(log)) == s)
    {
      SafeSnoc(log, e);
      log := log + [e];
      assert log[..|log| - 1] == old(log);
      forall s ensures EndedIn(log, s) <==> EndedIn(old(log), s) || (e.Saved? && e.session == s && Over(e.status)) {
        assert log[|log| - 1] == e;
        assert forall i | 0 <= i < |old(log)| :: log[i] == old(log)[i];
      }
    }

    /** An external call: any reply is possible, and being cancelled there as well. */
    method Ask(what: External) returns (r: Reply)
      requires Valid()
      requires what == StopObs && ModeOf(log) == Normal ==> BroadcastComplete(log)
      requires what == RunClosingTalk ==>
                 !ClosingIsDone(SessionOf(log)) && SessionOf(log) in sessions && Ending(sessions[SessionOf(log)].status)
      modifies this`log, this`replies
      ensures Valid() && log == old(log) + [Called(what, r)]
      ensures r == NextReply(old(replies)) && replies == Rest(old(replies))
    {
      r, replies := NextReply(replies), Rest(replies);
      Record(Called(what, r));
    }

    /** `sessions.save(session.transition(status))`. The transition is always in the table. */
    method Save(session: nat, status: Status)
      requires Valid() && session in sessions && status in Next(sessions[session].status)
      requires Over(status) ==> BroadcastComplete(log) && ObsIdle(log) && StreamStopped(log)
      modifies this`log, this`sessions
      ensures Valid() && sessions == Moved(old(sessions), session, status) && log == old(log) + [Saved(session, status)]
    {
      sessions := Moved(sessions, session, status);
      Record(Saved(session, status));
    }

    /** The command is accepted: what follows in the log is its doing. */
    ghost method Accept(mode: Mode, session: nat)
      requires Valid() && session in sessions && !Over(sessions[session].status)
      modifies this`log
      ensures Valid() && log == old(log) + [Begin(mode, session)]
    {
      Record(Begin(mode, session));
    }

    /** `_cancel_output`. */
    ghost method CancelOutput()
      requires Valid()
      modifies this`log
      ensures Valid() && log == old(log) + [OutputCanceled]
    {
      Record(OutputCanceled);
    }

    /** `_stop_obs_output`. */
    method StopObsOutput() returns (r: Reply)
      requires Valid() && (ModeOf(log) == Normal ==> BroadcastComplete(log))
      modifies this`log, this`replies
      ensures Valid() && log == old(log) + BringObs(old(replies))
      ensures r == Brought("idle", old(replies)) && replies == AfterBring("idle", old(replies))
    {
      ghost var trace := [];
      r := Ask(GetObs);
      trace := [Called(GetObs, r)];
      if !r.Value? { return; }
      SnocFacts(old(log), trace[0]);
      if r.text != "idle" {
        r := Ask(StopObs);
        Joined(old(log), trace, [Called(StopObs, r)]);
        trace := trace + [Called(StopObs, r)];
        if !r.Value? { return; }
      }
      r := Ask(GetObs);
      Joined(old(log), trace, [Called(GetObs, r)]);
    }

    /** The external part of `_stop_external`, by mode. */
    method StopEverything(mode: Mode) returns (r: Reply)
      requires Valid() && ModeOf(log) == mode
      modifies this`log, this`replies
      ensures Valid() && log == old(log) + StopTrace(mode, old(replies)) && r == StopReply(mode, old(replies))
    {
      if mode == Emergency { r := StopInEmergency(); } else { r := StopInOrder(); }
    }

    method StopInEmergency() returns (r: Reply)
      requires Valid() && ModeOf(log) == Emergency
      modifies this`log, this`replies
      ensures Valid() && log == old(log) + StopTrace(Emergency, old(replies)) && r == StopReply(Emergency, old(replies))
    {
      ghost var start := log;
      var obs := StopObsOutput();
      if !obs.Value? { return obs; }
      ghost var first, left := BringObs(old(replies)), replies;
      r := CompleteBroadcastIfNeeded();
      ghost var second := BringBroadcast(left);
      Joined(start, first, second);
      if !r.Value? { return; }
      r := Ask(GetStream);
      Joined(start, first + second, [Called(GetStream, r)]);
      r := StreamVerdict(obs, r);
    }

    method StopInOrder() returns (r: Reply)
      requires Valid() && ModeOf(log) == Normal
      modifies this`log, this`replies
      ensures Valid() && log == old(log) + StopTrace(Normal, old(replies)) && r == StopReply(Normal, old(replies))
    {
      ghost var start := log;
      r := CompleteBroadcastIfNeeded();
      if !r.Value? { return; }
      ghost var first, left := BringBroadcast(old(replies)), replies;
      BringFacts(start, GetBroadcast, CompleteBroadcast, "complete", old(replies));
      var obs := StopObsOutput();
      ghost var second := BringObs(left);
      Joined(start, first, second);
      if !obs.Value? { return obs; }
      r := Ask(GetStream);
      Joined(start, first + second, [Called(GetStream, r)]);
      r := StreamVerdict(obs, r);
    }

    method CompleteBroadcastIfNeeded() returns (r: Reply)
      requires Valid()
      modifies this`log, this`replies
      ensures Valid() && log == old(log) + BringBroadcast(old(replies))
      ensures r == Strict(Brought("complete", old(replies)), "complete") && replies == AfterBring("complete", old(replies))
    {
      ghost var trace := [];
      r := Ask(GetBroadcast);
      trace := [Called(GetBroadcast, r)];
      if !r.Value? { return; }
      if r.text != "complete" {
        r := Ask(CompleteBroadcast);
        Joined(old(log), trace, [Called(CompleteBroadcast, r)]);
        trace := trace + [Called(CompleteBroadcast, r)];
        if !r.Value? { return; }
      }
      r := Ask(GetBroadcast);
      Joined(old(log), trace, [Called(GetBroadcast, r)]);
      if r.Value? && r.text != "complete" { return Raised; }
    }

    predicate Stoppable(s: Status) { s == Closing || s == Stopping || s == EmergencyStopping }

    /** `_failure`. */
    method Fail(c: Command, mode: Mode, step: Step) returns (o: Outcome)
      requires Valid() && c.session in sessions
      modifies this`log, this`sessions, this`results
      ensures Valid() && o == Returned(FailedAt(mode, step)) && results == old(results)[c.id := o.result]
      ensures sessions == if Stoppable(old(sessions)[c.session].status) then Moved(old(sessions), c.session, StopFailed) else old(sessions)
      ensures log == old(log) + if Stoppable(old(sessions)[c.session].status) then [Saved(c.session, StopFailed)] else []
    {
      if Stoppable(sessions[c.session].status) {
        Save(c.session, StopFailed);
      }
      o := Returned(FailedAt(mode, step));
      results := results[c.id := o.result];
    }

    /** `_stop_external`. */
    method StopExternal(c: Command, mode: Mode) returns (o: Outcome)
      requires Valid() && ModeOf(log) == mode && c.session in sessions
      requires sessions[c.session].status == if mode == Normal then Stopping else EmergencyStopping
      modifies this`log, this`replies, this`sessions, this`results
      ensures Valid() && o == StopOutcome(mode, old(replies))
      ensures log == old(log) + ExternalTrace(mode, c.session, old(replies))
      ensures results == if o.Returned? then old(results)[c.id := o.result] else old(results)
      ensures sessions == if o.Cancelled? then old(sessions)
                          else Moved(old(sessions), c.session, if o == Returned(Done(mode)) then Final(mode) else StopFailed)
    {
      var r := StopEverything(mode);
      StopFacts(old(log), mode, old(replies));
      o := Conclude(c, mode, r);
      Joined(old(log), StopTrace(mode, old(replies)), Conclusion(mode, c.session, r));
    }

    /** The end of `_stop_external`, by how the calls went. */
    method Conclude(c: Command, mode: Mode, r: Reply) returns (o: Outcome)
      requires Valid() && c.session in sessions
      requires sessions[c.session].status == if mode == Normal then Stopping else EmergencyStopping
      requires r.Value? ==> BroadcastComplete(log) && ObsIdle(log) && StreamStopped(log)
      modifies this`log, this`sessions, this`results
      ensures Valid() && o == Concluded(mode, r) && log == old(log) + Conclusion(mode, c.session, r)
      ensures results == if o.Returned? then old(results)[c.id := o.result] else old(results)
      ensures sessions == if o.Cancelled? then old(sessions)
                          else Moved(old(sessions), c.session, if r.Value? then Final(mode) else StopFailed)
    {
      match r {
        case Interrupted => o := Cancelled;
        case Raised => o := Fail(c, mode, ExternalStep);
        case Value(_) =>
          Save(c.session, Final(mode));
          o := Returned(Done(mode));
          results := results[c.id := o.result];
      }
    }

    /** `_run_closing`: `Value("completed")` exactly when the talk was recorded as completed. */
    method RunClosing(session: nat, x: Context) returns (r: Reply)
      requires Valid() && !ClosingIsDone(session) && SessionOf(log) == session
      requires session in sessions && Ending(sessions[session].status)
      modifies this`log, this`replies, this`closing
      ensures Valid() && log == old(log) + TalkTrace(x, session, NextReply(old(replies)))
      ensures r.Value? <==> ClosingIsDone(session)
      ensures forall s | s != session :: ClosingIsDone(s) == old(ClosingIsDone(s))
      ensures !TalkPossible(x) ==> r == Raised && replies == old(replies)
      ensures TalkPossible(x) ==>
                var reply := NextReply(old(replies));
                replies == Rest(old(replies)) && r == if reply == Value("completed") || reply == Interrupted then reply else Raised
    {
      if !x.closingGateAllows { return Raised; }
      if !x.segmentExists { return Raised; }
      r := Speak(session);
    }

    /** The closing talk itself. */
    method Speak(session: nat) returns (r: Reply)
      requires Valid() && !ClosingIsDone(session) && SessionOf(log) == session
      requires session in sessions && Ending(sessions[session].status)
      modifies this`log, this`replies, this`closing
      ensures Valid() && replies == Rest(old(replies))
      ensures log == old(log) + ([Called(RunClosingTalk, NextReply(old(replies)))] + if r.Value? then [ClosingDone(session)] else [])
      ensures r == if NextReply(old(replies)) == Value("completed") || NextReply(old(replies)) == Interrupted then NextReply(old(replies)) else Raised
      ensures forall s :: ClosingIsDone(s) <==> old(ClosingIsDone(s)) || (s == session && r.Value?)
    {
      closing := closing[session := ClosingRunning];
      r := Ask(RunClosingTalk);
      Joined(old(log), [Called(RunClosingTalk, r)], []);
      if r == Interrupted { return; }
      if r != Value("completed") {
        closing := closing[session := ClosingFailed];
        return Raised;
      }
      SnocFacts(old(log), Called(RunClosingTalk, r));
      ClosingCompletes(session);
      Joined(old(log), [Called(RunClosingTalk, r)], [ClosingDone(session)]);
    }

    method ClosingCompletes(session: nat)
      requires Valid() && !ClosingIsDone(session) && LastReading(log, RunClosingTalk) == Value("completed")
      modifies this`log, this`closing
      ensures Valid() && log == old(log) + [ClosingDone(session)]
      ensures forall s :: ClosingIsDone(s) <==> old(ClosingIsDone(s)) || s == session
    {
      closing := closing[session := ClosingCompleted];
      Record(ClosingDone(session));
    }

    // ---------- Normal end ----------

    /** `_normal_locked`, exactly: its refusals in order, and for every environment its outcome and
        what it does. */
    method NormalLocked(c: Command, x: Context) returns (o: Outcome)
      requires Valid()
      modifies this`log, this`replies, this`closing, this`sessions, this`results
      ensures Valid() && old(log) <= log
      ensures o.Refused? <==> NormalRefusal(old(sessions), c, x).Some?
      ensures o.Refused? ==> o.reason == NormalRefusal(old(sessions), c, x).value
                             && Same(old(sessions), old(results), old(log)) && closing == old(closing)
      ensures !o.Refused? ==> c.session in old(sessions) && Ended(c, x, o, old(sessions)[c.session], old(ClosingIsDone(c.session)), old(replies), old(log))
      ensures results == if o.Returned? then old(results)[c.id := o.result] else old(results)
      ensures !o.Refused? ==> Outside(old(sessions), c.session)
      ensures forall s | s != c.session :: ClosingIsDone(s) == old(ClosingIsDone(s))
      ensures Calls(log) > Calls(old(log)) <==> NormalCallsOut(old(sessions), old(ClosingIsDone(c.session)), c, x)
      ensures Talks(log) == Talks(old(log)) + if NormalTalks(old(sessions), old(ClosingIsDone(c.session)), c, x) then 1 else 0
    {
      var refusal := NormalRefusal(sessions, c, x);
      if refusal.Some? { return Refused(refusal.value); }
      NormalFacts(log, sessions[c.session].status == StopFailed, ClosingIsDone(c.session), x, c.session, replies);
      o := NormalAccepted(c, x);
    }

    /** How an accepted normal end ended: outcome, session, closing talk and log. */
    ghost predicate Ended(c: Command, x: Context, o: Outcome, before: Session, done: bool, replies: seq<Reply>, start: seq<Entry>)
      reads this
    {
      && o == NormalOutcome(done, x, replies)
      && log == start + NormalTrace(before.status == StopFailed, done, x, c.session, replies)
      && c.session in sessions && NormalEffect(before, sessions[c.session], o)
      && (o.Cancelled? ==> (sessions[c.session].status == Stopping <==> Past(done, x, replies)))
      && (ClosingIsDone(c.session) <==> Past(done, x, replies))
      && (ClosingIsDone(c.session) ==> sessions[c.session].version > before.version)
    }

    /** `_normal_locked` after its checks. */
    method NormalAccepted(c: Command, x: Context) returns (o: Outcome)
      requires Valid() && NormalRefusal(sessions, c, x).None?
      modifies this`log, this`replies, this`closing, this`sessions, this`results
      ensures Valid() && !o.Refused?
      ensures Ended(c, x, o, old(sessions)[c.session], old(ClosingIsDone(c.session)), old(replies), old(log))
      ensures results == if o.Returned? then old(results)[c.id := o.result] else old(results)
      ensures Outside(old(sessions), c.session)
      ensures forall s | s != c.session :: ClosingIsDone(s) == old(ClosingIsDone(s))
    {
      ghost var before, resumed, done := sessions[c.session], sessions[c.session].status == StopFailed, ClosingIsDone(c.session);
      BeginNormal(c);
      NormalOpeningFacts(old(log), resumed, c.session);
      ghost var begun := sessions[c.session];
      o := CloseAndStop(c, x);
      FromBeginning(before, begun, sessions[c.session], o);
      Joined(old(log), NormalOpening(resumed, c.session), CloseTrace(resumed, done, x, c.session, old(replies)));
    }

    method BeginNormal(c: Command)
      requires Valid() && c.session in sessions
      requires sessions[c.session].status == Live || sessions[c.session].status == StopFailed
      modifies this`log, this`sessions
      ensures Valid() && log == old(log) + NormalOpening(old(sessions)[c.session].status == StopFailed, c.session)
      ensures sessions == if old(sessions)[c.session].status == StopFailed then old(sessions)
                          else old(sessions)[c.session := Session(Closing, old(sessions)[c.session].version + 2)]
    {
      Accept(Normal, c.session);
      if sessions[c.session].status == Live {
        RequestClosing(c.session);
        Joined(old(log), [Begin(Normal, c.session)], [Saved(c.session, ClosingRequested)] + [Saved(c.session, Closing)]);
      }
    }

    method RequestClosing(session: nat)
      requires Valid() && session in sessions && sessions[session].status == Live
      modifies this`log, this`sessions
      ensures Valid() && log == old(log) + ([Saved(session, ClosingRequested)] + [Saved(session, Closing)])
      ensures sessions == old(sessions)[session := Session(Closing, old(sessions)[session].version + 2)]
    {
      MovedTwice(sessions, session, ClosingRequested, Closing);
      Save(session, ClosingRequested);
      Save(session, Closing);
      Joined(old(log), [Saved(session, ClosingRequested)], [Saved(session, Closing)]);
    }

    /** The rest of `_normal_locked`, from `closing_status = "completed"` on. */
    method CloseAndStop(c: Command, x: Context) returns (o: Outcome)
      requires Valid() && ModeOf(log) == Normal && SessionOf(log) == c.session && c.session in sessions
      requires sessions[c.session].status == Closing || sessions[c.session].status == StopFailed
      modifies this`log, this`replies, this`closing, this`sessions, this`results
      ensures Valid() && o == NormalOutcome(old(ClosingIsDone(c.session)), x, old(replies))
      ensures log == old(log) + CloseTrace(old(sessions)[c.session].status == StopFailed, old(ClosingIsDone(c.session)), x, c.session, old(replies))
      ensures results == if o.Returned? then old(results)[c.id := o.result] else old(results)
      ensures Outside(old(sessions), c.session) && CloseEffect(old(sessions)[c.session], sessions[c.session], o)
      ensures o.Cancelled? ==> (sessions[c.session].status == Stopping <==> Past(old(ClosingIsDone(c.session)), x, old(replies)))
      ensures forall s | s != c.session :: ClosingIsDone(s) == old(ClosingIsDone(s))
      ensures ClosingIsDone(c.session) <==> Past(old(ClosingIsDone(c.session)), x, old(replies))
      ensures ClosingIsDone(c.session) ==> sessions[c.session].version > old(sessions)[c.session].version
    {
      if ClosingIsDone(c.session) {
        StoppedEffect(sessions, c.session, replies);
        o := StopNormally(c);
      } else {
        o := CloseFirst(c, x);
      }
    }

    /** The same while the closing talk is not done. */
    method CloseFirst(c: Command, x: Context) returns (o: Outcome)
      requires Valid() && ModeOf(log) == Normal && SessionOf(log) == c.session && c.session in sessions && !ClosingIsDone(c.session)
      requires sessions[c.session].status == Closing || sessions[c.session].status == StopFailed
      modifies this`log, this`replies, this`closing, this`sessions, this`results
      ensures Valid() && o == NormalOutcome(false, x, old(replies))
      ensures log == old(log) + CloseTrace(old(sessions)[c.session].status == StopFailed, false, x, c.session, old(replies))
      ensures results == if o.Returned? then old(results)[c.id := o.result] else old(results)
      ensures Outside(old(sessions), c.session) && CloseEffect(old(sessions)[c.session], sessions[c.session], o)
      ensures o.Cancelled? ==> (sessions[c.session].status == Stopping <==> Past(false, x, old(replies)))
      ensures forall s | s != c.session :: ClosingIsDone(s) == old(ClosingIsDone(s))
      ensures ClosingIsDone(c.session) <==> Past(false, x, old(replies))
      ensures ClosingIsDone(c.session) ==> sessions[c.session].version > old(sessions)[c.session].version
    {
      ghost var resumed, reply := sessions[c.session].status == StopFailed, NextReply(replies);
      ghost var talk := TalkTrace(x, c.session, reply) + TalkEnd(resumed, c.session, AfterTalk(x, reply));
      TalkPartFacts(log, resumed, x, c.session, reply);
      TalkEndedEffect(sessions, c.session, x, reply);
      Joined(log, talk, StoppingTrace(c.session, Rest(replies)));
      Joined(log, talk, []);
      var ended := CloseOrFail(c, x);
      if ended.Some? { return ended.value; }
      StoppedEffect(sessions, c.session, replies);
      o := StopNormally(c);
    }

    /** Runs the closing talk; `None` when it completed and the end can go on. */
    method CloseOrFail(c: Command, x: Context) returns (o: Option<Outcome>)
      requires Valid() && SessionOf(log) == c.session
      requires c.session in sessions && !ClosingIsDone(c.session)
      requires sessions[c.session].status == Closing || sessions[c.session].status == StopFailed
      modifies this`log, this`replies, this`closing, this`sessions, this`results
      ensures Valid() && o == AfterTalk(x, NextReply(old(replies)))
      ensures replies == if TalkPossible(x) then Rest(old(replies)) else old(replies)
      ensures log == old(log) + (TalkTrace(x, c.session, NextReply(old(replies)))
                                 + TalkEnd(old(sessions)[c.session].status == StopFailed, c.session, o))
      ensures o.None? <==> ClosingIsDone(c.session)
      ensures forall s | s != c.session :: ClosingIsDone(s) == old(ClosingIsDone(s))
      ensures results == if o == Some(TALK_FAILED) then old(results)[c.id := TALK_FAILED.result] else old(results)
      ensures sessions == TalkEnded(old(sessions), c.session, o)
    {
      var r := RunClosing(c.session, x);
      match r {
        case Value(_) => o := None;
        case Interrupted => o := Some(Cancelled);
        case Raised =>
          var failed := Fail(c, Normal, ClosingStep);
          o := Some(failed);
      }
      Joined(old(log), TalkTrace(x, c.session, NextReply(old(replies))), TalkEnd(old(sessions)[c.session].status == StopFailed, c.session, o));
    }

    method StopNormally(c: Command) returns (o: Outcome)
      requires Valid() && ModeOf(log) == Normal && c.session in sessions && Stopping in Next(sessions[c.session].status)
      modifies this`log, this`replies, this`sessions, this`results
      ensures Valid() && o == StopOutcome(Normal, old(replies)) && log == old(log) + StoppingTrace(c.session, old(replies))
      ensures results == if o.Returned? then old(results)[c.id := o.result] else old(results)
      ensures sessions == Stopped(old(sessions), c.session, o)
    {
      SavedFacts(log, c.session, Stopping);
      Save(c.session, Stopping);
      o := StopExternal(c, Normal);
      Joined(old(log), [Saved(c.session, Stopping)], ExternalTrace(Normal, c.session, old(replies)));
    }

    // ---------- Emergency stop ----------

    /** `emergency` under the lock, exactly: its refusals in order, and for every environment its
        outcome and what it does. */
    method EmergencyLocked(c: Command, x: Context) returns (o: Outcome)
      requires Valid()
      modifies this`log, this`replies, this`sessions, this`results
      ensures Valid() && old(log) <= log
      ensures o.Refused? <==> EmergencyRefusal(old(sessions), c, x).Some?
      ensures o.Refused? ==> o.reason == EmergencyRefusal(old(sessions), c, x).value
                             && Same(old(sessions), old(results), old(log))
      ensures results == if o.Returned? then old(results)[c.id := o.result] else old(results)
      ensures !o.Refused? ==> c.session in old(sessions) && StoppedBy(c, o, old(sessions)[c.session], old(replies), old(log))
      ensures !o.Refused? ==> Outside(old(sessions), c.session)
      ensures Calls(log) > Calls(old(log)) <==> EmergencyRefusal(old(sessions), c, x).None?
      ensures Talks(log) == Talks(old(log))
    {
      var refusal := EmergencyRefusal(sessions, c, x);
      if refusal.Some? { return Refused(refusal.value); }
      AcceptedMayStop(sessions, c, x);
      EmergencyFacts(log, c.session, replies);
      o := EmergencyAccepted(c);
    }

    /** How an accepted emergency stop ended: outcome, session and log. */
    ghost predicate StoppedBy(c: Command, o: Outcome, before: Session, replies: seq<Reply>, start: seq<Entry>)
      reads this
    {
      && o == StopOutcome(Emergency, replies)
      && log == start + (EmergencyOpening(c.session) + ExternalTrace(Emergency, c.session, replies))
      && c.session in sessions && EmergencyEffect(before, sessions[c.session], o)
    }

    /** `emergency` after its checks. */
    method EmergencyAccepted(c: Command) returns (o: Outcome)
      requires Valid() && c.session in sessions && EmergencyStopRequested in Next(sessions[c.session].status)
      modifies this`log, this`replies, this`sessions, this`results
      ensures Valid() && StoppedBy(c, o, old(sessions)[c.session], old(replies), old(log))
      ensures results == if o.Returned? then old(results)[c.id := o.result] else old(results)
      ensures Outside(old(sessions), c.session)
    {
      EmergencyOpeningFacts(log, c.session);
      EmergencyStoppedEffect(sessions, c.session, replies);
      BeginEmergency(c);
      o := StopExternal(c, Emergency);
      Joined(old(log), EmergencyOpening(c.session), ExternalTrace(Emergency, c.session, old(replies)));
    }

    method BeginEmergency(c: Command)
      requires Valid() && c.session in sessions && EmergencyStopRequested in Next(sessions[c.session].status)
      modifies this`log, this`sessions
      ensures Valid() && log == old(log) + EmergencyOpening(c.session)
      ensures sessions == old(sessions)[c.session := Session(EmergencyStopping, old(sessions)[c.session].version + 2)]
    {
      MovedTwice(sessions, c.session, EmergencyStopRequested, EmergencyStopping);
      ghost var begin, requested := [Begin(Emergency, c.session)], [Saved(c.session, EmergencyStopRequested)];
      Accept(Emergency, c.session);
      Save(c.session, EmergencyStopRequested);
      Joined(old(log), begin, requested);
      CancelOutput();
      Joined(old(log), begin + requested, [OutputCanceled]);
      Save(c.session, EmergencyStopping);
      Joined(old(log), begin + requested + [OutputCanceled], [Saved(c.session, EmergencyStopping)]);
    }

    // ---------- Arrival and departure ----------

    /** `normal` before the lock: a recorded result is answered without touching anything. */
    method NormalArrives(task: nat, c: Command) returns (cached: Option<Result>)
      requires Valid()
      modifies this`normalTask, this`taskEvents
      ensures Valid()
      ensures cached == if c.id in results then Some(results[c.id]) else None
      ensures taskEvents == if cached.Some? then old(taskEvents) else old(taskEvents) + [Entered(task)]
    {
      if c.id in results { return Some(results[c.id]); }
      normalTask := Some(task);
      taskEvents := taskEvents + [Entered(task)];
      assert taskEvents[..|taskEvents| - 1] == old(taskEvents);
      cached := None;
    }

    /** `normal`'s `finally`. */
    method NormalLeaves(task: nat)
      requires Valid()
      modifies this`normalTask, this`taskEvents
      ensures Valid() && taskEvents == old(taskEvents) + [Left(task)]
    {
      if normalTask == Some(task) { normalTask := None; }
      taskEvents := taskEvents + [Left(task)];
      assert taskEvents[..|taskEvents| - 1] == old(taskEvents);
    }

    /** `emergency` before the lock: unless the result is recorded, output is asked to stop and
        the normal end that `_normal_task` points to is cancelled. */
    method EmergencyArrives(c: Command) returns (cached: Option<Result>, cancels: Option<nat>)
      requires Valid()
      modifies this`log
      ensures Valid()
      ensures cached == if c.id in results then Some(results[c.id]) else None
      ensures log == if cached.Some? then old(log) else old(log) + [OutputCanceled]
      ensures cancels == if cached.Some? then None else Pointer(taskEvents)
    {
      if c.id in results { return Some(results[c.id]), None; }
      CancelOutput();
      cached, cancels := None, normalTask;
    }

    /** `normal` when nobody else is waiting. */
    method NormalEnd(task: nat, c: Command, x: Context) returns (o: Outcome)
      requires Valid()
      modifies this
      ensures Valid() && old(log) <= log
      ensures c.id in old(results) ==> o == Returned(old(results)[c.id]) && Same(old(sessions), old(results), old(log))
      ensures c.id !in old(results) ==>
                (Calls(log) > Calls(old(log)) <==> NormalCallsOut(old(sessions), old(ClosingIsDone(c.session)), c, x))
    {
      var cached := NormalArrives(task, c);
      if cached.Some? { return Returned(cached.value); }
      o := NormalLocked(c, x);
      NormalLeaves(task);
    }

    /** `emergency` when nobody else is waiting. */
    method EmergencyStop(c: Command, x: Context) returns (o: Outcome)
      requires Valid()
      modifies this
      ensures Valid() && old(log) <= log
      ensures c.id in old(results) ==> o == Returned(old(results)[c.id]) && Same(old(sessions), old(results), old(log))
      ensures c.id !in old(results) ==> (Calls(log) > Calls(old(log)) <==> EmergencyRefusal(old(sessions), c, x).None?)
      ensures c.id !in old(results) ==> |old(log)| < |log| && log[|old(log)|] == OutputCanceled
    {
      var cached, cancels := EmergencyArrives(c);
      if cached.Some? { return Returned(cached.value); }
      o := EmergencyLocked(c, x);
    }

    ghost predicate Same(s: map<nat, Session>, r: map<nat, Result>, l: seq<Entry>)
      reads this
    {
      sessions == s && results == r && log == l
    }

    /** No other session changed. */
    ghost predicate Outside(s: map<nat, Session>, session: nat)
      reads this
    {
      session in sessions && sessions == s[session := sessions[session]]
    }
  }

  // ---------- Which sessions can still be ended ----------

  predicate Accepted(sessions: map<nat, Session>, c: Command, x: Context) {
    NormalRefusal(sessions, c, x).None? || EmergencyRefusal(sessions, c, x).None?
  }

  /** From which states a session can still be ended at all: a cancelled emergency stop leaves
      it in a state from which no command is accepted any more. */
  lemma WhereCommandsAreAccepted(sessions: map<nat, Session>, session: nat)
    requires session in sessions
    ensures var s := sessions[session].status;
      (exists c: Command, x: Context :: c.session == session && Accepted(sessions, c, x))
      <==> s == Live || IsEnding(s) || s == StopFailed
  {
    var c, x := Command(0, session, sessions[session].version), Context(true, true, true, true, true);
    assert c.session == session && Accepted(sessions, c, x) <==> EmergencyRefusal(sessions, c, x).None?;
    assert EmergencyRefusal(sessions, c, x).None? <==>
           sessions[session].status == Live || IsEnding(sessions[session].status) || sessions[session].status == StopFailed;
  }
}
