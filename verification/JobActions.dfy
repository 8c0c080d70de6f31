/**
 The input handler of the `bullmq job` node, run against the acknowledgement protocol.

 The handler suspends at most once. Whatever other parties do to the acknowledgements meanwhile is an arbitrary
 valid run, and every awaited call and the sending of the message may fail.
 */
module JobActions {
  import opened Histories
  import opened Wrappers
  import opened AckProtocol

  datatype Action =
    | Progress
    | UpdateData
    | RemoveDeduplicationKey
    | GetChildrenValues
    | GetFailedChildrenValues
    | RemoveUnprocessedChildren
    | CompleteJob(result: string)
    | FailJob(text: string)
    | FailUnrecoverable(text: string)
    | RateLimit
    | MoveToWait
    | MoveToDelayed(delay: Option<real>)  // None when the delay is not a finite number
    | CancelJob(reason: string)
    | CancelAllJobs(reason: string)
    | Unsupported

  /** What the handler cannot choose: the outcome of its calls, what others do while it is suspended, and the abort
      controllers its worker holds, for this job and for all of its jobs. */
  datatype Environment = Environment(
    callFails: bool,
    sendFails: bool,
    meanwhile: seq<Event>,
    controller: Option<SignalId>,
    controllers: seq<SignalId>)

  /** What the handler can stumble over. */
  datatype Problem = NoSuchAck | UnsupportedAction | BadDelay | NotCancellable | CallFailed | SendFailed

  /** Non-terminal actions only read or update the job. */
  predicate NonTerminal(action: Action) {
    action.Progress? || action.UpdateData? || action.RemoveDeduplicationKey? || action.GetChildrenValues? ||
    action.GetFailedChildrenValues? || action.RemoveUnprocessedChildren?
  }

  predicate Awaits(action: Action) {
    NonTerminal(action) || action.RateLimit? || action.MoveToWait? || action.MoveToDelayed?
  }

  predicate Sends(action: Action) {
    !action.FailJob? && !action.FailUnrecoverable? && !action.RateLimit?
  }

  /** Why an action is refused before anything has happened; `registered` tells whether the acknowledgement was still
      live when the message arrived. */
  function Refusal(registered: bool, action: Action, env: Environment): Option<Problem> {
    if !registered then Some(NoSuchAck)
    else if action.Unsupported? then Some(UnsupportedAction)
    else if action.MoveToDelayed? && (action.delay.None? || action.delay.value < 0.0) then Some(BadDelay)
    else if action.CancelJob? && env.controller.None? then Some(NotCancellable)
    else None
  }

  /** Whether the handler gets past its awaited call. */
  predicate Reached(registered: bool, action: Action, env: Environment) {
    Refusal(registered, action, env).None? && !(Awaits(action) && env.callFails)
  }

  /** What the handler reports, if anything went wrong. */
  function Trouble(registered: bool, action: Action, env: Environment): Option<Problem> {
    if Refusal(registered, action, env).Some? then Refusal(registered, action, env)
    else if Awaits(action) && env.callFails then Some(CallFailed)
    else if Sends(action) && env.sendFails then Some(SendFailed)
    else None
  }

  /** The settlement a terminal or transition action stands for. */
  function Verdict(action: Action): Option<Settlement> {
    match action
    case CompleteJob(result) => Some(Resolve(result))
    case FailJob(text) => Some(Reject(JobError(text)))
    case FailUnrecoverable(text) => Some(Reject(Unrecoverable(text)))
    case RateLimit => Some(Reject(RateLimited))
    case MoveToWait => Some(Reject(MovedToWait))
    case MoveToDelayed(_) => Some(Reject(MovedToDelayed))
    case _ => None
  }

  function Aborts(signals: seq<SignalId>, reason: string): (evs: seq<Event>)
    ensures |evs| == |signals|
  {
    if signals == [] then [] else Aborts(signals[..|signals| - 1], reason) + [Abort(signals[|signals| - 1], reason)]
  }

  /** The event by which an entry is settled. */
  function Settling(ack: AckId, s: Settlement): Event {
    match s
    case Resolve(value) => Complete(ack, value)
    case Reject(error) => Fail(ack, error)
  }

  function SetOf(signals: seq<SignalId>): set<SignalId> {
    set x | x in signals
  }

  /** What an entry looks like after its worker has aborted `signals` with `reason`. */
  function AfterAborts(e: Entry, signals: set<SignalId>, fired: set<SignalId>, reason: string): Entry {
    if e.signal.Some? && e.signal.value in signals && e.signal.value !in fired then
      SettleEntry(e, Reject(Aborted(reason)))
    else e
  }

  lemma AbortSettles(st: State, x: SignalId, reason: string, a: AckId)
    requires Inv(st) && a in st.entries
    ensures Next(st, Abort(x, reason)).entries[a] == AfterAborts(st.entries[a], {x}, st.aborted, reason)
  {
    assert EntryInv(st.entries[a], a in st.registry);
  }

  lemma {:induction false} AbortsKeepEntries(st: State, signals: seq<SignalId>, reason: string)
    requires ValidFrom(st, Aborts(signals, reason))
    ensures RunFrom(st, Aborts(signals, reason)).entries.Keys == st.entries.Keys
  {
    if signals != [] {
      assert Aborts(signals, reason)[..|signals| - 1] == Aborts(signals[..|signals| - 1], reason);
      AbortsKeepEntries(st, signals[..|signals| - 1], reason);
    }
  }

  lemma AfterMoreAborts(e: Entry, signals: set<SignalId>, fired: set<SignalId>, x: SignalId, reason: string)
    ensures AfterAborts(AfterAborts(e, signals, fired, reason), {x}, fired + signals, reason) ==
              AfterAborts(e, signals + {x}, fired, reason)
  {
  }

  /** Aborting settles exactly the unsettled entries that listen to one of the signals and were there before it fired. */
  lemma {:induction false} AbortsSettle(st: State, signals: seq<SignalId>, reason: string, a: AckId)
    requires Inv(st) && ValidFrom(st, Aborts(signals, reason)) && a in st.entries
    ensures var after := RunFrom(st, Aborts(signals, reason));
      && a in after.entries && after.entries[a] == AfterAborts(st.entries[a], SetOf(signals), st.aborted, reason)
      && after.aborted == st.aborted + SetOf(signals)
  {
    if signals != [] {
      var n := |signals| - 1;
      assert Aborts(signals, reason)[..n] == Aborts(signals[..n], reason);
      AbortsSettle(st, signals[..n], reason, a);
      assert SetOf(signals) == SetOf(signals[..n]) + {signals[n]} by {
        assert signals == signals[..n] + [signals[n]];
      }
      var before := RunFrom(st, Aborts(signals[..n], reason));
      RunKeepsInv(st, Aborts(signals[..n], reason));
      AbortSettles(before, signals[n], reason, a);
      AfterMoreAborts(st.entries[a], SetOf(signals[..n]), st.aborted, signals[n], reason);
    }
  }

  /** A verdict settles its entry unless somebody was faster, and touches no other entry. */
  ghost predicate Decided(before: State, after: State, ack: AckId, verdict: Settlement) {
    && ack in before.entries && after.entries.Keys == before.entries.Keys
    && ack !in after.registry
    && after.entries[ack].settlement ==
         (if before.entries[ack].settlement.Some? then before.entries[ack].settlement else Some(verdict))
    && forall a | a in before.entries && a != ack :: after.entries[a] == before.entries[a]
  }

  /** Cancelling settles exactly the unsettled entries that listen to the aborted controllers. */
  ghost predicate Cancelled(before: State, after: State, signals: set<SignalId>, reason: string) {
    && after.entries.Keys == before.entries.Keys
    && forall a | a in before.entries :: after.entries[a] == AfterAborts(before.entries[a], signals, before.aborted, reason)
  }

  /** The documented outcome of an action whose awaited call, if any, succeeds. */
  ghost predicate Accomplished(before: State, after: State, ack: AckId, action: Action, env: Environment) {
    if Verdict(action).Some? then Decided(before, after, ack, Verdict(action).value)
    else if action.CancelJob? then env.controller.Some? && Cancelled(before, after, {env.controller.value}, action.reason)
    else if action.CancelAllJobs? then Cancelled(before, after, SetOf(env.controllers), action.reason)
    else after == before
  }

  lemma SettlingDecides(before: State, ack: AckId, verdict: Settlement)
    requires ack in before.entries
    ensures Decided(before, SettleOne(before, ack, verdict), ack, verdict)
  {
  }

  lemma VerdictDecides(st: State, evs: seq<Event>, ack: AckId, verdict: Settlement)
    requires Inv(st) && ValidFrom(st, evs) && ack in st.entries
    ensures var more := evs + [Settling(ack, verdict)];
      ValidFrom(st, more) && Decided(RunFrom(st, evs), RunFrom(st, more), ack, verdict)
  {
    SettlementIsFinal(st, evs, ack);
    RunFromOneMore(st, evs, Settling(ack, verdict));
    SettlingDecides(RunFrom(st, evs), ack, verdict);
  }

  lemma {:induction false} AbortsAreValid(st: State, signals: seq<SignalId>, reason: string)
    ensures ValidFrom(st, Aborts(signals, reason))
  {
    if signals != [] {
      AbortsAreValid(st, signals[..|signals| - 1], reason);
      assert Aborts(signals, reason)[..|signals| - 1] == Aborts(signals[..|signals| - 1], reason);
    }
  }

  lemma AbortsCancel(st: State, signals: seq<SignalId>, reason: string)
    requires Inv(st)
    ensures ValidFrom(st, Aborts(signals, reason))
    ensures Cancelled(st, RunFrom(st, Aborts(signals, reason)), SetOf(signals), reason)
  {
    AbortsAreValid(st, signals, reason);
    AbortsKeepEntries(st, signals, reason);
    forall a | a in st.entries
      ensures RunFrom(st, Aborts(signals, reason)).entries[a] == AfterAborts(st.entries[a], SetOf(signals), st.aborted, reason)
    {
      AbortsSettle(st, signals, reason, a);
    }
  }

  /** What others do while the handler is suspended, if it is. */
  function Meanwhile(action: Action, env: Environment): seq<Event> {
    if Awaits(action) then env.meanwhile else []
  }

  /** What happens to the acknowledgements while an action is handled. */
  function RunFor(registered: bool, ack: AckId, action: Action, env: Environment): seq<Event> {
    if Refusal(registered, action, env).Some? then []
    else if !Reached(registered, action, env) then Meanwhile(action, env)
    else if Verdict(action).Some? then Meanwhile(action, env) + [Settling(ack, Verdict(action).value)]
    else if action.CancelJob? then [] + [Abort(env.controller.value, action.reason)]
    else if action.CancelAllJobs? then Aborts(env.controllers, action.reason)
    else Meanwhile(action, env)
  }

  /** Every action has its documented outcome: a refused one changes nothing, one whose call fails leaves only what
      others did, and any other accomplishes its task on what it finds after its call. */
  lemma ActionsAccomplish(st: State, ack: AckId, action: Action, env: Environment)
    requires Inv(st) && ValidFrom(st, env.meanwhile)
    ensures var registered, run := ack in st.registry, RunFor(ack in st.registry, ack, action, env);
      && ValidFrom(st, Meanwhile(action, env)) && ValidFrom(st, run)
      && if Refusal(registered, action, env).Some? then RunFrom(st, run) == st
         else if !Reached(registered, action, env) then RunFrom(st, run) == RunFrom(st, env.meanwhile)
         else Accomplished(RunFrom(st, Meanwhile(action, env)), RunFrom(st, run), ack, action, env)
  {
    if Reached(ack in st.registry, action, env) {
      if Verdict(action).Some? {
        VerdictDecides(st, Meanwhile(action, env), ack, Verdict(action).value);
      } else if action.CancelAllJobs? {
        AbortsCancel(st, env.controllers, action.reason);
      } else if action.CancelJob? {
        var signals := [env.controller.value];
        AbortsCancel(st, signals, action.reason);
        assert SetOf(signals) == {signals[0]} && signals[..0] == [];
      }
    }
  }

  // ---------- the handler ----------

  /** What the message carries on: the job's fields, the result of the call, a value of the caller's, or just true. */
  datatype Payload = JobFields | CallResult | Given(value: string) | Truth

  function PayloadOf(action: Action): Payload {
    match action
    case Progress => JobFields
    case UpdateData => JobFields
    case CompleteJob(result) => Given(result)
    case MoveToWait => Truth
    case MoveToDelayed(_) => Truth
    case CancelJob(_) => Truth
    case CancelAllJobs(_) => Truth
    case _ => CallResult
  }

  /** What a handler does, one after the other: it awaits a call; it completes, fails or aborts something; it hands a
      message to `send`; `done` or `node.error` hears how it went. */
  datatype Effect =
    | Awaited
    | Did(event: Event)
    | Sent(payload: Payload)
    | SendThrew
    | DoneHeard(problem: Option<Problem>)
    | ErrorReported(error: Problem)

  function Deeds(evs: seq<Event>): seq<Effect> {
    if evs == [] then [] else Deeds(Prefix(evs)) + [Did(Last(evs))]
  }

  lemma OneMoreAbort(signals: seq<SignalId>, i: nat, reason: string)
    requires i < |signals|
    ensures Aborts(signals[..i + 1], reason) == Aborts(signals[..i], reason) + [Abort(signals[i], reason)]
    ensures Deeds(Aborts(signals[..i + 1], reason)) ==
              Deeds(Aborts(signals[..i], reason)) + [Did(Abort(signals[i], reason))]
  {
    assert signals[..i + 1][..i] == signals[..i];
    assert Prefix(Aborts(signals[..i + 1], reason)) == Aborts(signals[..i], reason);
  }

  /** Everything an action does before it gets to send: its call, then its deeds. */
  function DoingFor(registered: bool, ack: AckId, action: Action, env: Environment): seq<Effect> {
    var called := if Refusal(registered, action, env).None? && Awaits(action) then [Awaited] else [];
    if !Reached(registered, action, env) then called
    else if Verdict(action).Some? then called + [Did(Settling(ack, Verdict(action).value))]
    else if action.CancelJob? then called + [Did(Abort(env.controller.value, action.reason))]
    else if action.CancelAllJobs? then Deeds(Aborts(env.controllers, action.reason))
    else called
  }

  /** The one attempt to send that an action makes, if it gets that far. */
  function MessageFor(registered: bool, action: Action, env: Environment): Option<Effect> {
    if !Reached(registered, action, env) || !Sends(action) then None
    else if env.sendFails then Some(SendThrew)
    else Some(Sent(PayloadOf(action)))
  }

  /** How a report is made: `done` hears everything; without it, `node.error` hears of problems. */
  function ReportOf(hasDone: bool, problem: Option<Problem>): Option<Effect> {
    if hasDone then Some(DoneHeard(problem)) else if problem.Some? then Some(ErrorReported(problem.value)) else None
  }

  function Then(log: seq<Effect>, e: Option<Effect>): seq<Effect> {
    if e.Some? then log + [e.value] else log
  }

  function WorkFor(registered: bool, ack: AckId, action: Action, env: Environment): seq<Effect> {
    Then(DoingFor(registered, ack, action, env), MessageFor(registered, action, env))
  }

  /** Everything a handler does. */
  function LogFor(registered: bool, ack: AckId, action: Action, env: Environment, hasDone: bool): seq<Effect> {
    Then(WorkFor(registered, ack, action, env), ReportOf(hasDone, Trouble(registered, action, env)))
  }

  // ---------- what such a log says ----------

  predicate IsSend(e: Effect) {
    e.Sent? || e.SendThrew?
  }

  predicate IsReport(e: Effect) {
    e.DoneHeard? || e.ErrorReported?
  }

  /** The attempts to send, and the reports, of a log. */
  function Messages(log: seq<Effect>): seq<Effect> {
    if log == [] then []
    else if IsSend(Last(log)) then Messages(Prefix(log)) + [Last(log)]
    else Messages(Prefix(log))
  }

  function Reports(log: seq<Effect>): seq<Effect> {
    if log == [] then []
    else if IsReport(Last(log)) then Reports(Prefix(log)) + [Last(log)]
    else Reports(Prefix(log))
  }

  /** The order a handler keeps: first the call, then its deeds, then the message, then the report. */
  function Rank(e: Effect): nat {
    match e
    case Awaited => 0
    case Did(_) => 1
    case Sent(_) => 2
    case SendThrew => 2
    case DoneHeard(_) => 3
    case ErrorReported(_) => 3
  }

  ghost predicate InOrder(log: seq<Effect>) {
    forall i, j | 0 <= i < j < |log| :: Rank(log[i]) <= Rank(log[j])
  }

  /** A log that consists of calls and deeds. */
  ghost predicate Silent(log: seq<Effect>) {
    InOrder(log) && forall e | e in log :: Rank(e) <= 1
  }

  lemma {:induction false} SilentLogs(log: seq<Effect>)
    requires Silent(log)
    ensures Messages(log) == [] && Reports(log) == []
  {
    if log != [] {
      SilentLogs(Prefix(log));
    }
  }

  lemma {:induction false} DeedsAreSilent(evs: seq<Event>)
    ensures Silent(Deeds(evs)) && forall e | e in Deeds(evs) :: e.Did?
  {
    if evs != [] {
      DeedsAreSilent(Prefix(evs));
    }
  }

  lemma DoingIsSilent(registered: bool, ack: AckId, action: Action, env: Environment)
    ensures Silent(DoingFor(registered, ack, action, env))
  {
    if action.CancelAllJobs? {
      DeedsAreSilent(Aborts(env.controllers, action.reason));
    }
  }

  /** What a last effect adds to a log whose effects all come before it in rank. */
  lemma OneMoreEffect(log: seq<Effect>, e: Effect)
    requires InOrder(log) && forall x | x in log :: Rank(x) <= Rank(e)
    ensures InOrder(log + [e])
    ensures Messages(log + [e]) == if IsSend(e) then Messages(log) + [e] else Messages(log)
    ensures Reports(log + [e]) == if IsReport(e) then Reports(log) + [e] else Reports(log)
  {
    assert Prefix(log + [e]) == log;
  }

  /** A log that ends with an attempt to send, if there is one, and then one that ends with a report. */
  lemma MessageComesLast(doing: seq<Effect>, message: Option<Effect>)
    requires Silent(doing) && (message.Some? ==> IsSend(message.value))
    ensures var work := Then(doing, message);
      InOrder(work) && (forall e | e in work :: Rank(e) <= 2) && Reports(work) == [] && Messages(work) == Then([], message)
  {
    SilentLogs(doing);
    match message
    case None =>
    case Some(e) =>
      OneMoreEffect(doing, e);
      assert Then(doing, message) == doing + [e] && Then([], message) == [e];
  }

  lemma ReportComesLast(work: seq<Effect>, report: Effect)
    requires InOrder(work) && (forall e | e in work :: Rank(e) <= 2) && Reports(work) == [] && IsReport(report)
    ensures Reports(work + [report]) == [report] && Messages(work + [report]) == Messages(work) && InOrder(work + [report])
  {
    OneMoreEffect(work, report);
  }

  lemma WorkIsUnreported(registered: bool, ack: AckId, action: Action, env: Environment)
    ensures var work := WorkFor(registered, ack, action, env);
      && InOrder(work) && (forall e | e in work :: Rank(e) <= 2)
      && Reports(work) == [] && Messages(work) == Then([], MessageFor(registered, action, env))
  {
    DoingIsSilent(registered, ack, action, env);
    MessageComesLast(DoingFor(registered, ack, action, env), MessageFor(registered, action, env));
  }

  /** Whatever the action and whatever fails: how it went is reported exactly once, to `done` if there is one, and
      otherwise to `node.error` if there is an error; at most one message is handed to `send`; and everything happens in
      its order, the report last. */
  lemma OneReportAtTheEnd(registered: bool, ack: AckId, action: Action, env: Environment, hasDone: bool)
    ensures var log, trouble := LogFor(registered, ack, action, env, hasDone), Trouble(registered, action, env);
      && Reports(log) ==
           (if hasDone then [DoneHeard(trouble)] else if trouble.Some? then [ErrorReported(trouble.value)] else [])
      && Messages(log) == Then([], MessageFor(registered, action, env))
      && InOrder(log)
  {
    WorkIsUnreported(registered, ack, action, env);
    var report := ReportOf(hasDone, Trouble(registered, action, env));
    if report.Some? {
      ReportComesLast(WorkFor(registered, ack, action, env), report.value);
    }
  }

  lemma {:induction false} ReportsAreAll(log: seq<Effect>, e: Effect)
    requires IsReport(e)
    ensures e in log <==> e in Reports(log)
  {
    if log != [] {
      ReportsAreAll(Prefix(log), e);
      assert log == Prefix(log) + [Last(log)];
    }
  }

  lemma ReportTells(log: seq<Effect>, trouble: Option<Problem>)
    requires Reports(log) == [DoneHeard(trouble)]
    ensures DoneHeard(None) in log <==> trouble.None?
  {
    ReportsAreAll(log, DoneHeard(None));
  }

  /** A success is reported exactly when nothing went wrong. */
  lemma SuccessMeansNoTrouble(registered: bool, ack: AckId, action: Action, env: Environment)
    ensures DoneHeard(None) in LogFor(registered, ack, action, env, true) <==> Trouble(registered, action, env).None?
  {
    OneReportAtTheEnd(registered, ack, action, env, true);
    ReportTells(LogFor(registered, ack, action, env, true), Trouble(registered, action, env));
  }

  /** By then every message the action promises has been sent. */
  lemma SuccessMeansSent(registered: bool, ack: AckId, action: Action, env: Environment)
    requires DoneHeard(None) in LogFor(registered, ack, action, env, true) && Sends(action)
    ensures Sent(PayloadOf(action)) in LogFor(registered, ack, action, env, true)
  {
    SuccessMeansNoTrouble(registered, ack, action, env);
    assert LogFor(registered, ack, action, env, true) ==
      DoingFor(registered, ack, action, env) + [Sent(PayloadOf(action))] + [DoneHeard(None)];
  }

  /** By the time a message is handed to `send`, all the deeds of its action are done. */
  lemma DeedsComeFirst(registered: bool, ack: AckId, action: Action, env: Environment, hasDone: bool, i: nat)
    requires i < |LogFor(registered, ack, action, env, hasDone)|
    requires IsSend(LogFor(registered, ack, action, env, hasDone)[i])
    ensures LogFor(registered, ack, action, env, hasDone)[..i] == DoingFor(registered, ack, action, env)
    ensures Reached(registered, action, env)
  {
    DoingIsSilent(registered, ack, action, env);
    var doing, log := DoingFor(registered, ack, action, env), LogFor(registered, ack, action, env, hasDone);
    assert forall k | 0 <= k < |doing| :: log[k] == doing[k] && doing[k] in doing;
  }

  // ---------- what each action promises, in plain values ----------

  function Success(hasDone: bool): seq<Effect> {
    if hasDone then [DoneHeard(None)] else []
  }

  function Failure(hasDone: bool, problem: Problem): seq<Effect> {
    if hasDone then [DoneHeard(Some(problem))] else [ErrorReported(problem)]
  }

  /** After its work an action hands a message to `send` and reports how that went. */
  ghost predicate SendsAfter(log: seq<Effect>, work: seq<Effect>, payload: Payload, hasDone: bool, sendFails: bool) {
    log == if sendFails then work + [SendThrew] + Failure(hasDone, SendFailed) else work + [Sent(payload)] + Success(hasDone)
  }

  /** An entry takes a settlement unless it has one; no other entry changes. */
  ghost predicate SettledAs(before: State, after: State, ack: AckId, s: Settlement) {
    && ack in before.entries && after.entries.Keys == before.entries.Keys
    && after.entries[ack].settlement ==
         (if before.entries[ack].settlement.Some? then before.entries[ack].settlement else Some(s))
    && forall a | a in before.entries && a != ack :: after.entries[a] == before.entries[a]
  }

  /** Exactly the unsettled entries that listen to one of the signals fail, unless the signal had fired before. */
  ghost predicate FailedByAbort(before: State, after: State, signals: seq<SignalId>, reason: string) {
    && after.entries.Keys == before.entries.Keys
    && forall a | a in before.entries ::
      var e := before.entries[a];
      if e.settlement.None? && e.signal.Some? && e.signal.value in signals && e.signal.value !in before.aborted then
        after.entries[a].settlement == Some(Reject(Aborted(reason)))
      else after.entries[a] == e
  }

  /** An action that awaits a call: when it fails nothing else is done, otherwise `rest` says what is. */
  ghost predicate AfterCall(log: seq<Effect>, after: State, middle: State, env: Environment, hasDone: bool, rest: bool) {
    if env.callFails then log == [Awaited] + Failure(hasDone, CallFailed) && after == middle else rest
  }

  /** Before anything has happened: the acknowledgement must be live and the action a supported one. */
  ghost predicate RefusedWith(problem: Problem, st: State, after: State, log: seq<Effect>, hasDone: bool) {
    log == Failure(hasDone, problem) && after == st
  }

  /** The actions that access the job and send what comes of it. */
  ghost predicate AccessPromise(action: Action, after: State, middle: State, log: seq<Effect>,
                                env: Environment, hasDone: bool)
  {
    var payload :=
      match action
      case Progress => JobFields
      case UpdateData => JobFields
      case _ => CallResult;
    AfterCall(log, after, middle, env, hasDone,
              SendsAfter(log, [Awaited], payload, hasDone, env.sendFails) && after == middle)
  }

  /** The actions that decide about the job at once. */
  ghost predicate DecisionPromise(ack: AckId, action: Action, st: State, after: State, log: seq<Effect>,
                                  env: Environment, hasDone: bool)
  {
    match action
    case CompleteJob(result) =>
      SendsAfter(log, [Did(Complete(ack, result))], Given(result), hasDone, env.sendFails) &&
      SettledAs(st, after, ack, Resolve(result))
    case FailJob(text) =>
      log == [Did(Fail(ack, JobError(text)))] + Success(hasDone) &&
      SettledAs(st, after, ack, Reject(JobError(text)))
    case FailUnrecoverable(text) =>
      log == [Did(Fail(ack, Unrecoverable(text)))] + Success(hasDone) &&
      SettledAs(st, after, ack, Reject(Unrecoverable(text)))
    case _ => true
  }

  /** The actions that hand the job back to BullMQ and fail the acknowledgement with what the worker has to see. */
  ghost predicate HandBackPromise(ack: AckId, action: Action, st: State, after: State, middle: State, log: seq<Effect>,
                                  env: Environment, hasDone: bool)
  {
    match action
    case RateLimit =>
      AfterCall(log, after, middle, env, hasDone,
                log == [Awaited, Did(Fail(ack, RateLimited))] + Success(hasDone) &&
                SettledAs(middle, after, ack, Reject(RateLimited)))
    case MoveToWait =>
      AfterCall(log, after, middle, env, hasDone,
                SendsAfter(log, [Awaited, Did(Fail(ack, MovedToWait))], Truth, hasDone, env.sendFails) &&
                SettledAs(middle, after, ack, Reject(MovedToWait)))
    case MoveToDelayed(delay) =>
      if delay.None? || delay.value < 0.0 then RefusedWith(BadDelay, st, after, log, hasDone)
      else
        AfterCall(log, after, middle, env, hasDone,
                  SendsAfter(log, [Awaited, Did(Fail(ack, MovedToDelayed))], Truth, hasDone, env.sendFails) &&
                  SettledAs(middle, after, ack, Reject(MovedToDelayed)))
    case _ => true
  }

  /** The actions that abort: the job's own controller, or every controller of its worker. */
  ghost predicate CancelPromise(action: Action, st: State, after: State, log: seq<Effect>, env: Environment, hasDone: bool) {
    match action
    case CancelJob(reason) =>
      if env.controller.None? then RefusedWith(NotCancellable, st, after, log, hasDone)
      else
        SendsAfter(log, [Did(Abort(env.controller.value, reason))], Truth, hasDone, env.sendFails) &&
        FailedByAbort(st, after, [env.controller.value], reason)
    case CancelAllJobs(reason) =>
      var signals := env.controllers;
      SendsAfter(log, seq(|signals|, i requires 0 <= i < |signals| => Did(Abort(signals[i], reason))),
                 Truth, hasDone, env.sendFails) &&
      FailedByAbort(st, after, env.controllers, reason)
    case _ => true
  }

  /** Everything together: what one message does, given what others do while a call is awaited. */
  ghost predicate Promised(ack: AckId, action: Action, st: State, after: State, log: seq<Effect>,
                           env: Environment, hasDone: bool)
    requires ValidFrom(st, env.meanwhile)
  {
    var middle := RunFrom(st, env.meanwhile);
    if ack !in st.registry then RefusedWith(NoSuchAck, st, after, log, hasDone)
    else
      match action
      case Progress => AccessPromise(action, after, middle, log, env, hasDone)
      case UpdateData => AccessPromise(action, after, middle, log, env, hasDone)
      case RemoveDeduplicationKey => AccessPromise(action, after, middle, log, env, hasDone)
      case GetChildrenValues => AccessPromise(action, after, middle, log, env, hasDone)
      case GetFailedChildrenValues => AccessPromise(action, after, middle, log, env, hasDone)
      case RemoveUnprocessedChildren => AccessPromise(action, after, middle, log, env, hasDone)
      case CompleteJob(_) => DecisionPromise(ack, action, st, after, log, env, hasDone)
      case FailJob(_) => DecisionPromise(ack, action, st, after, log, env, hasDone)
      case FailUnrecoverable(_) => DecisionPromise(ack, action, st, after, log, env, hasDone)
      case RateLimit => HandBackPromise(ack, action, st, after, middle, log, env, hasDone)
      case MoveToWait => HandBackPromise(ack, action, st, after, middle, log, env, hasDone)
      case MoveToDelayed(_) => HandBackPromise(ack, action, st, after, middle, log, env, hasDone)
      case CancelJob(_) => CancelPromise(action, st, after, log, env, hasDone)
      case CancelAllJobs(_) => CancelPromise(action, st, after, log, env, hasDone)
      case Unsupported => RefusedWith(UnsupportedAction, st, after, log, hasDone)
  }

  lemma {:induction false} DeedsInOrder(signals: seq<SignalId>, reason: string)
    ensures Deeds(Aborts(signals, reason)) ==
              seq(|signals|, i requires 0 <= i < |signals| => Did(Abort(signals[i], reason)))
  {
    if signals != [] {
      DeedsInOrder(signals[..|signals| - 1], reason);
      OneMoreAbort(signals, |signals| - 1, reason);
      assert signals[..|signals| - 1 + 1] == signals;
    }
  }

  lemma RefusedLog(registered: bool, ack: AckId, action: Action, env: Environment, hasDone: bool)
    requires Refusal(registered, action, env).Some?
    ensures LogFor(registered, ack, action, env, hasDone) == Failure(hasDone, Refusal(registered, action, env).value)
  {
  }

  lemma CallFailedLog(registered: bool, ack: AckId, action: Action, env: Environment, hasDone: bool)
    requires Refusal(registered, action, env).None? && Awaits(action) && env.callFails
    ensures LogFor(registered, ack, action, env, hasDone) == [Awaited] + Failure(hasDone, CallFailed)
  {
  }

  lemma SilentLog(registered: bool, ack: AckId, action: Action, env: Environment, hasDone: bool)
    requires Reached(registered, action, env) && !Sends(action)
    ensures LogFor(registered, ack, action, env, hasDone) == DoingFor(registered, ack, action, env) + Success(hasDone)
  {
  }

  lemma SendingLog(registered: bool, ack: AckId, action: Action, env: Environment, hasDone: bool)
    requires Reached(registered, action, env) && Sends(action)
    ensures SendsAfter(LogFor(registered, ack, action, env, hasDone), DoingFor(registered, ack, action, env),
                       PayloadOf(action), hasDone, env.sendFails)
  {
  }

  /** The log of an action that is not refused, by the functions above. */
  lemma LogsAre(ack: AckId, action: Action, env: Environment, hasDone: bool)
    requires Refusal(true, action, env).None?
    ensures var log, doing := LogFor(true, ack, action, env, hasDone), DoingFor(true, ack, action, env);
      if Awaits(action) && env.callFails then log == [Awaited] + Failure(hasDone, CallFailed)
      else if Sends(action) then SendsAfter(log, doing, PayloadOf(action), hasDone, env.sendFails)
      else log == doing + Success(hasDone)
  {
    if Awaits(action) && env.callFails {
      CallFailedLog(true, ack, action, env, hasDone);
    } else if Sends(action) {
      SendingLog(true, ack, action, env, hasDone);
    } else {
      SilentLog(true, ack, action, env, hasDone);
    }
  }

  /** The deeds of the actions that settle the acknowledgement. */
  lemma DoingIs(ack: AckId, action: Action, env: Environment)
    requires Reached(true, action, env) && Verdict(action).Some?
    ensures var did := Did(Settling(ack, Verdict(action).value));
      DoingFor(true, ack, action, env) == if Awaits(action) then [Awaited, did] else [did]
  {
  }

  lemma AccessKept(ack: AckId, action: Action, st: State, env: Environment, hasDone: bool)
    requires Inv(st) && ValidFrom(st, env.meanwhile) && ack in st.registry
    requires NonTerminal(action)
    ensures ValidFrom(st, RunFor(true, ack, action, env))
    ensures AccessPromise(action, RunFrom(st, RunFor(true, ack, action, env)), RunFrom(st, env.meanwhile),
                          LogFor(true, ack, action, env, hasDone), env, hasDone)
  {
    LogsAre(ack, action, env, hasDone);
  }

  /** What the settling actions leave behind. */
  lemma VerdictIsTaken(ack: AckId, action: Action, st: State, env: Environment)
    requires Inv(st) && ValidFrom(st, env.meanwhile) && ack in st.registry
    requires Reached(true, action, env) && Verdict(action).Some?
    ensures ValidFrom(st, RunFor(true, ack, action, env))
    ensures SettledAs(if Awaits(action) then RunFrom(st, env.meanwhile) else st, RunFrom(st, RunFor(true, ack, action, env)),
                      ack, Verdict(action).value)
  {
    ActionsAccomplish(st, ack, action, env);
  }

  lemma DecisionKept(ack: AckId, action: Action, st: State, env: Environment, hasDone: bool)
    requires Inv(st) && ValidFrom(st, env.meanwhile) && ack in st.registry
    requires action.CompleteJob? || action.FailJob? || action.FailUnrecoverable?
    ensures ValidFrom(st, RunFor(true, ack, action, env))
    ensures DecisionPromise(ack, action, st, RunFrom(st, RunFor(true, ack, action, env)),
                            LogFor(true, ack, action, env, hasDone), env, hasDone)
  {
    LogsAre(ack, action, env, hasDone);
    DoingIs(ack, action, env);
    VerdictIsTaken(ack, action, st, env);
  }

  lemma HandBackKept(ack: AckId, action: Action, st: State, env: Environment, hasDone: bool)
    requires Inv(st) && ValidFrom(st, env.meanwhile) && ack in st.registry
    requires action.RateLimit? || action.MoveToWait? || action.MoveToDelayed?
    ensures ValidFrom(st, RunFor(true, ack, action, env))
    ensures HandBackPromise(ack, action, st, RunFrom(st, RunFor(true, ack, action, env)), RunFrom(st, env.meanwhile),
                            LogFor(true, ack, action, env, hasDone), env, hasDone)
  {
    if Refusal(true, action, env).Some? {
      RefusedLog(true, ack, action, env, hasDone);
    } else {
      LogsAre(ack, action, env, hasDone);
      if !env.callFails {
        DoingIs(ack, action, env);
        VerdictIsTaken(ack, action, st, env);
      }
    }
  }

  function SignalsOf(action: Action, env: Environment): seq<SignalId> {
    if action.CancelAllJobs? then env.controllers else if env.controller.Some? then [env.controller.value] else []
  }

  lemma CancelledIsFailed(before: State, after: State, signals: seq<SignalId>, reason: string)
    requires Cancelled(before, after, SetOf(signals), reason)
    ensures FailedByAbort(before, after, signals, reason)
  {
  }

  /** What the cancelling actions leave behind. */
  lemma AbortsAreHeard(ack: AckId, action: Action, st: State, env: Environment)
    requires Inv(st) && ValidFrom(st, env.meanwhile) && ack in st.registry
    requires Reached(true, action, env) && (action.CancelJob? || action.CancelAllJobs?)
    ensures ValidFrom(st, RunFor(true, ack, action, env))
    ensures FailedByAbort(st, RunFrom(st, RunFor(true, ack, action, env)), SignalsOf(action, env), action.reason)
  {
    ActionsAccomplish(st, ack, action, env);
    assert action.CancelJob? ==> SetOf([env.controller.value]) == {env.controller.value};
    CancelledIsFailed(st, RunFrom(st, RunFor(true, ack, action, env)), SignalsOf(action, env), action.reason);
  }

  lemma AbortingAll(ack: AckId, action: Action, env: Environment)
    requires Reached(true, action, env) && action.CancelAllJobs?
    ensures var signals := env.controllers;
      DoingFor(true, ack, action, env) ==
      seq(|signals|, i requires 0 <= i < |signals| => Did(Abort(signals[i], action.reason)))
  {
    DeedsInOrder(env.controllers, action.reason);
  }

  lemma AbortingOne(ack: AckId, action: Action, env: Environment)
    requires Reached(true, action, env) && action.CancelJob?
    ensures DoingFor(true, ack, action, env) == [Did(Abort(env.controller.value, action.reason))]
  {
  }

  lemma CancelKept(ack: AckId, action: Action, st: State, env: Environment, hasDone: bool)
    requires Inv(st) && ValidFrom(st, env.meanwhile) && ack in st.registry
    requires action.CancelJob? || action.CancelAllJobs?
    ensures ValidFrom(st, RunFor(true, ack, action, env))
    ensures CancelPromise(action, st, RunFrom(st, RunFor(true, ack, action, env)),
                          LogFor(true, ack, action, env, hasDone), env, hasDone)
  {
    if Refusal(true, action, env).Some? {
      RefusedLog(true, ack, action, env, hasDone);
    } else {
      LogsAre(ack, action, env, hasDone);
      AbortsAreHeard(ack, action, st, env);
      if action.CancelJob? {
        AbortingOne(ack, action, env);
      } else {
        AbortingAll(ack, action, env);
      }
    }
  }

  /** What OnInput does is what each action promises. */
  lemma PromisesAreKept(ack: AckId, action: Action, st: State, env: Environment, hasDone: bool)
    requires Inv(st) && ValidFrom(st, env.meanwhile)
    ensures ValidFrom(st, RunFor(ack in st.registry, ack, action, env))
    ensures Promised(ack, action, st, RunFrom(st, RunFor(ack in st.registry, ack, action, env)),
                     LogFor(ack in st.registry, ack, action, env, hasDone), env, hasDone)
  {
    if ack in st.registry {
      if NonTerminal(action) {
        AccessKept(ack, action, st, env, hasDone);
      } else if action.CompleteJob? || action.FailJob? || action.FailUnrecoverable? {
        DecisionKept(ack, action, st, env, hasDone);
      } else if action.RateLimit? || action.MoveToWait? || action.MoveToDelayed? {
        HandBackKept(ack, action, st, env, hasDone);
      } else if action.CancelJob? || action.CancelAllJobs? {
        CancelKept(ack, action, st, env, hasDone);
      }
    }
  }

  // ---------- the handler itself ----------

  /** How an async function ends; a thrown problem ends every caller up to the next catch. */
  datatype Outcome = Normal | Threw(problem: Problem) {
    predicate IsFailure() {
      Threw?
    }

    function PropagateFailure(): Outcome {
      this
    }
  }

  function OutcomeFor(registered: bool, action: Action, env: Environment): Outcome {
    match Trouble(registered, action, env)
    case Some(problem) => Threw(problem)
    case None => Normal
  }

  /** One message being handled. */
  class Invocation {
    const env: Environment
    const hasDone: bool
    const start: State  // the acknowledgements when the message arrived
    var acks: State
    var log: seq<Effect>
    ghost var run: seq<Event>

    ghost predicate Tracks()
      reads this`acks, this`run
    {
      ValidFrom(start, run) && acks == RunFrom(start, run)
    }

    ghost predicate Untouched()
      reads this
    {
      ValidFrom(start, env.meanwhile) && acks == start && run == [] && log == []
    }

    constructor (env: Environment, hasDone: bool, acks: State)
      requires ValidFrom(acks, env.meanwhile)
      ensures this.env == env && this.hasDone == hasDone && start == acks && Untouched()
    {
      this.env, this.hasDone, this.start, this.acks := env, hasDone, acks, acks;
      log, run := [], [];
    }

    method Await() returns (r: Outcome)
      requires Untouched()
      modifies this
      ensures Tracks() && run == env.meanwhile && log == [Awaited]
      ensures r == if env.callFails then Threw(CallFailed) else Normal
    {
      log, run := [Awaited], env.meanwhile;
      acks := RunFrom(acks, env.meanwhile);
      r := if env.callFails then Threw(CallFailed) else Normal;
    }

    method Do(ev: Event)
      requires Tracks() && Enabled(acks, ev)
      modifies this
      ensures Tracks() && run == old(run) + [ev] && log == old(log) + [Did(ev)]
    {
      RunFromOneMore(start, run, ev);
      acks := Next(acks, ev);
      log, run := log + [Did(ev)], run + [ev];
    }

    method NodeSend(payload: Payload) returns (r: Outcome)
      modifies this`log
      ensures log == old(log) + [if env.sendFails then SendThrew else Sent(payload)]
      ensures r == if env.sendFails then Threw(SendFailed) else Normal
    {
      if env.sendFails {
        log := log + [SendThrew];
        return Threw(SendFailed);
      }
      log := log + [Sent(payload)];
      r := Normal;
    }

    method NodeDone(problem: Option<Problem>)
      modifies this`log
      ensures log == Then(old(log), ReportOf(hasDone, problem))
    {
      if hasDone {
        log := log + [DoneHeard(problem)];
      } else if problem.Some? {
        log := log + [ErrorReported(problem.value)];
      }
    }

    /** How the try block has gone: what it threw, if anything, and everything it did, its own report included. */
    ghost predicate Handled(ack: AckId, action: Action, r: Outcome)
      reads this
    {
      && r == OutcomeFor(ack in start.registry, action, env)
      && log == Then(WorkFor(ack in start.registry, ack, action, env), if r.Normal? then ReportOf(hasDone, None) else None)
      && run == RunFor(ack in start.registry, ack, action, env) && Tracks()
    }

    /** The branches that update the job and send its fields. */
    method Update(ghost ack: AckId, action: Action) returns (r: Outcome)
      requires Untouched() && ack in start.registry
      requires action.Progress? || action.UpdateData?
      modifies this
      ensures Handled(ack, action, r)
    {
      match action {
        case Progress =>
          :- Await();
          :- NodeSend(JobFields);
          NodeDone(None);
          return Normal;
        case UpdateData =>
          :- Await();
          :- NodeSend(JobFields);
          NodeDone(None);
          return Normal;
      }
    }

    /** The branches that send what BullMQ answers. */
    method Ask(ghost ack: AckId, action: Action) returns (r: Outcome)
      requires Untouched() && ack in start.registry
      requires NonTerminal(action) && !action.Progress? && !action.UpdateData?
      modifies this
      ensures Handled(ack, action, r)
    {
      match action {
        case RemoveDeduplicationKey =>
          :- Await();
          :- NodeSend(CallResult);
          NodeDone(None);
          return Normal;
        case GetChildrenValues =>
          :- Await();
          :- NodeSend(CallResult);
          NodeDone(None);
          return Normal;
        case GetFailedChildrenValues =>
          :- Await();
          :- NodeSend(CallResult);
          NodeDone(None);
          return Normal;
        case RemoveUnprocessedChildren =>
          :- Await();
          :- NodeSend(CallResult);
          NodeDone(None);
          return Normal;
      }
    }

    /** The branches that settle the acknowledgement at once. */
    method Decide(ack: AckId, action: Action) returns (r: Outcome)
      requires Inv(start) && Untouched() && ack in start.registry
      requires action.CompleteJob? || action.FailJob? || action.FailUnrecoverable?
      modifies this
      ensures Handled(ack, action, r)
    {
      match action {
        case CompleteJob(result) =>
          Do(Complete(ack, result));
          :- NodeSend(Given(result));
          NodeDone(None);
          return Normal;
        case FailJob(text) =>
          Do(Fail(ack, JobError(text)));
          NodeDone(None);
          return Normal;
        case FailUnrecoverable(text) =>
          Do(Fail(ack, Unrecoverable(text)));
          NodeDone(None);
          return Normal;
      }
    }

    /** The branches that hand the job back to BullMQ and then settle the acknowledgement. */
    method HandBack(ack: AckId, action: Action) returns (r: Outcome)
      requires Inv(start) && Untouched() && ack in start.registry
      requires action.RateLimit? || action.MoveToWait?
      modifies this
      ensures Handled(ack, action, r)
    {
      SettlementIsFinal(start, env.meanwhile, ack);
      match action {
        case RateLimit =>
          :- Await();
          Do(Fail(ack, RateLimited));
          NodeDone(None);
          return Normal;
        case MoveToWait =>
          :- Await();
          Do(Fail(ack, MovedToWait));
          :- NodeSend(Truth);
          NodeDone(None);
          return Normal;
      }
    }

    /** The branch that postpones the job. */
    method Postpone(ack: AckId, action: Action) returns (r: Outcome)
      requires Inv(start) && Untouched() && ack in start.registry && action.MoveToDelayed?
      modifies this
      ensures Handled(ack, action, r)
    {
      SettlementIsFinal(start, env.meanwhile, ack);
      if action.delay.None? || action.delay.value < 0.0 {
        return Threw(BadDelay);
      }
      :- Await();
      Do(Fail(ack, MovedToDelayed));
      :- NodeSend(Truth);
      NodeDone(None);
      return Normal;
    }

    /** Aborts every controller the worker holds. */
    method AbortAll(reason: string)
      requires Untouched()
      modifies this
      ensures Tracks() && run == Aborts(env.controllers, reason) && log == Deeds(run)
    {
      for i := 0 to |env.controllers|
        invariant Tracks() && run == Aborts(env.controllers[..i], reason) && log == Deeds(run)
      {
        OneMoreAbort(env.controllers, i, reason);
        Do(Abort(env.controllers[i], reason));
      }
      assert env.controllers[..|env.controllers|] == env.controllers;
    }

    /** The branches that abort controllers of the worker. */
    method Cancel(ghost ack: AckId, action: Action) returns (r: Outcome)
      requires Untouched() && ack in start.registry
      requires action.CancelJob? || action.CancelAllJobs?
      modifies this
      ensures Handled(ack, action, r)
    {
      match action {
        case CancelJob(reason) =>
          if env.controller.None? {
            return Threw(NotCancellable);
          }
          Do(Abort(env.controller.value, reason));
          :- NodeSend(Truth);
          NodeDone(None);
          return Normal;
        case CancelAllJobs(reason) =>
          AbortAll(reason);
          :- NodeSend(Truth);
          NodeDone(None);
          return Normal;
      }
    }

    /** The body of the handler's try block. */
    method Handle(ack: AckId, action: Action) returns (r: Outcome)
      requires Inv(start) && Untouched()
      modifies this
      ensures Handled(ack, action, r)
    {
      if ack !in acks.registry {
        return Threw(NoSuchAck);
      }
      if action.Progress? || action.UpdateData? {
        r := Update(ack, action);
      } else if NonTerminal(action) {
        r := Ask(ack, action);
      } else if action.CompleteJob? || action.FailJob? || action.FailUnrecoverable? {
        r := Decide(ack, action);
      } else if action.RateLimit? || action.MoveToWait? {
        r := HandBack(ack, action);
      } else if action.MoveToDelayed? {
        r := Postpone(ack, action);
      } else if action.CancelJob? || action.CancelAllJobs? {
        r := Cancel(ack, action);
      } else {
        r := Threw(UnsupportedAction);
      }
    }

    /** The whole handler: whatever the try block throws, the catch reports. */
    method OnInput(ack: AckId, action: Action)
      requires Inv(start) && Untouched()
      modifies this
      ensures log == LogFor(ack in start.registry, ack, action, env, hasDone)
      ensures run == RunFor(ack in start.registry, ack, action, env) && Tracks()
      // in plain values: what it does and what it leaves behind
      ensures ValidFrom(start, env.meanwhile) && Promised(ack, action, start, acks, log, env, hasDone)
    {
      PromisesAreKept(ack, action, start, env, hasDone);
      var r := Handle(ack, action);
      if r.Threw? {
        NodeDone(Some(r.problem));
      }
    }
  }
}
