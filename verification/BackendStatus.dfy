/**
 The live status of a config node's shared backend, its readers, and the latch that reports each kind of backend
 failure once.

 The readiness promise is memoized by BullMQ, so it says nothing about the present; live events must always win.
 */
module BackendStatus {
  import opened Histories
  import opened Wrappers

  datatype Status = Connecting | Connected | Disconnected

  datatype Category = MigrationRequired | VersionMismatch | UnsupportedPostgres | PgMissing | Generic

  type Reader = nat

  /** One uninterrupted block of code. */
  datatype Event =
    | QueueBuilt                           // the shared queue is there, and its backend is being watched
    | Ready
    | Errored
    | Closed
    | ReadinessResolved
    | ReadinessRejected(category: Category)
    | ConstructionFailed(category: Category)
    | ResourceFailed(category: Category)   // any other caller of reportBackendFailure
    | Subscribe(reader: Reader)
    | Unsubscribe(reader: Reader)
    | CloseNode

  // ---------- what the history says ----------

  /** What a live event, or a resource that could not even be built, says about the backend. */
  function Live(ev: Event): Option<Status> {
    match ev
    case Ready => Some(Connected)
    case Errored => Some(Disconnected)
    case Closed => Some(Disconnected)
    case ConstructionFailed(_) => Some(Disconnected)
    case _ => None
  }

  function Outcome(ev: Event): Option<Status> {
    match ev
    case ReadinessResolved => Some(Connected)
    case ReadinessRejected(_) => Some(Disconnected)
    case _ => None
  }

  function LastLive(evs: seq<Event>): Option<Status> {
    if evs == [] then None else if Live(Last(evs)).Some? then Live(Last(evs)) else LastLive(Prefix(evs))
  }

  function FirstOutcome(evs: seq<Event>): Option<Status> {
    if evs == [] then None
    else if FirstOutcome(Prefix(evs)).Some? then FirstOutcome(Prefix(evs))
    else Outcome(Last(evs))
  }

  /** The status a user should see: the last live word, or else what readiness said first, or else connecting. */
  function StatusOf(evs: seq<Event>): Status {
    match LastLive(evs)
    case Some(s) => s
    case None =>
      match FirstOutcome(evs)
      case Some(s) => s
      case None => Connecting
  }

  predicate Subscribed(evs: seq<Event>, r: Reader) {
    evs != [] &&
    if Last(evs) == Subscribe(r) then true else if Last(evs) == Unsubscribe(r) then false else Subscribed(Prefix(evs), r)
  }

  /** The category an event hands to the latch, given the status it meets. */
  function Handed(ev: Event, status: Status): Option<Category> {
    match ev
    case ResourceFailed(c) => Some(c)
    case ConstructionFailed(c) => Some(c)
    case ReadinessRejected(c) => if status.Connecting? then Some(c) else None
    case _ => None
  }

  /** The failure categories handed to the latch since the last close, in order. */
  function Passed(evs: seq<Event>): seq<Category> {
    if evs == [] || Last(evs).CloseNode? then []
    else
      match Handed(Last(evs), StatusOf(Prefix(evs)))
      case Some(c) => Passed(Prefix(evs)) + [c]
      case None => Passed(Prefix(evs))
  }

  /** A list with one more category, unless it is there already. */
  function Once(cs: seq<Category>, c: Option<Category>): seq<Category> {
    if c.None? || c.value in cs then cs else cs + [c.value]
  }

  /** A list without the repetitions. */
  function Distinct(cs: seq<Category>): seq<Category> {
    if cs == [] then []
    else
      Once(Distinct(Prefix(cs)), Some(Last(cs)))
  }

  lemma {:induction false} DistinctIsExact(cs: seq<Category>)
    ensures forall c :: c in Distinct(cs) <==> c in cs
    ensures forall i, j | 0 <= i < j < |Distinct(cs)| :: Distinct(cs)[i] != Distinct(cs)[j]
  {
    if cs != [] {
      DistinctIsExact(Prefix(cs));
      assert cs == Prefix(cs) + [Last(cs)];
    }
  }

  lemma {:induction false} HeardIsDefinite(evs: seq<Event>)
    ensures LastLive(evs) != Some(Connecting) && FirstOutcome(evs) != Some(Connecting)
  {
    if evs != [] {
      HeardIsDefinite(Prefix(evs));
    }
  }

  /** How one more event changes what should be seen: a live word always counts, a readiness outcome only as long as
      nothing has been heard at all. */
  lemma StatusStep(evs: seq<Event>, ev: Event)
    ensures StatusOf(evs + [ev]) ==
              if Live(ev).Some? then Live(ev).value
              else if Outcome(ev).Some? && StatusOf(evs).Connecting? then Outcome(ev).value
              else StatusOf(evs)
  {
    assert Prefix(evs + [ev]) == evs && Last(evs + [ev]) == ev;
    HeardIsDefinite(evs);
  }

  lemma PassedStep(evs: seq<Event>, ev: Event)
    ensures Distinct(Passed(evs + [ev])) ==
              if ev.CloseNode? then [] else Once(Distinct(Passed(evs)), Handed(ev, StatusOf(evs)))
  {
    assert Prefix(evs + [ev]) == evs && Last(evs + [ev]) == ev;
    var cs := Passed(evs);
    match Handed(ev, StatusOf(evs))
    case Some(c) => assert Prefix(cs + [c]) == cs;
    case None =>
  }

  // ---------- over whole runs ----------

  /** Once something has been heard, the status never goes back to connecting. */
  lemma {:induction false} NeverConnectingAgain(evs: seq<Event>, more: seq<Event>)
    requires !StatusOf(evs).Connecting?
    ensures !StatusOf(evs + more).Connecting?
    decreases |more|
  {
    if more == [] {
      assert evs + more == evs;
    } else {
      NeverConnectingAgain(evs, Prefix(more));
      assert Prefix(evs + more) == evs + Prefix(more) && Last(evs + more) == Last(more);
    }
  }

  lemma {:induction false} OnceLiveAlwaysLive(evs: seq<Event>, more: seq<Event>)
    requires LastLive(evs).Some?
    ensures LastLive(evs + more).Some?
    decreases |more|
  {
    if more == [] {
      assert evs + more == evs;
    } else {
      OnceLiveAlwaysLive(evs, Prefix(more));
      assert Prefix(evs + more) == evs + Prefix(more) && Last(evs + more) == Last(more);
    }
  }

  /** After a live event, readiness has no say: removing its outcomes from the rest of the run changes nothing. */
  lemma {:induction false} ReadinessNeverOverrides(evs: seq<Event>, more: seq<Event>)
    requires LastLive(evs).Some? && forall ev | ev in more :: Live(ev).None?
    ensures StatusOf(evs + more) == StatusOf(evs)
    decreases |more|
  {
    if more == [] {
      assert evs + more == evs;
    } else {
      ReadinessNeverOverrides(evs, Prefix(more));
      assert Prefix(evs + more) == evs + Prefix(more) && Last(evs + more) == Last(more);
      assert Last(more) in more;
      OnceLiveAlwaysLive(evs, Prefix(more));
    }
  }

  // ---------- the config node, event by event ----------

  /** The shared queue and whether its readiness is still awaited, the status, its readers, and the failure categories
      reported since the last close. */
  datatype View = View(queue: bool, seeding: bool, status: Status, readers: set<Reader>, reported: seq<Category>)

  const INIT := View(false, false, Connecting, {}, [])

  function Next(v: View, ev: Event): View {
    match ev
    case QueueBuilt => v.(queue := true, seeding := true)
    case Ready => v.(status := Connected)
    case Errored => v.(status := Disconnected)
    case Closed => v.(status := Disconnected)
    case ReadinessResolved => v.(seeding := false, status := if v.status.Connecting? then Connected else v.status)
    case ReadinessRejected(c) =>
      if v.status.Connecting? then v.(seeding := false, status := Disconnected, reported := Once(v.reported, Some(c)))
      else v.(seeding := false)
    case ConstructionFailed(c) => v.(status := Disconnected, reported := Once(v.reported, Some(c)))
    case ResourceFailed(c) => v.(reported := Once(v.reported, Some(c)))
    case Subscribe(r) => v.(readers := v.readers + {r})
    case Unsubscribe(r) => v.(readers := v.readers - {r})
    case CloseNode => v.(reported := [])
  }

  function After(evs: seq<Event>): View {
    if evs == [] then INIT else Next(After(Prefix(evs)), Last(evs))
  }

  lemma {:induction false} StatusIsPrescribed(evs: seq<Event>)
    ensures After(evs).status == StatusOf(evs)
  {
    if evs != [] {
      StatusIsPrescribed(Prefix(evs));
      StatusStep(Prefix(evs), Last(evs));
      assert evs == Prefix(evs) + [Last(evs)];
    }
  }

  lemma {:induction false} ReadersArePrescribed(evs: seq<Event>)
    ensures forall r :: r in After(evs).readers <==> Subscribed(evs, r)
  {
    if evs != [] {
      ReadersArePrescribed(Prefix(evs));
    }
  }

  lemma ReportStep(v: View, ev: Event)
    ensures Next(v, ev).reported == if ev.CloseNode? then [] else Once(v.reported, Handed(ev, v.status))
  {
  }

  lemma {:induction false} ReportsArePrescribed(evs: seq<Event>)
    ensures After(evs).reported == Distinct(Passed(evs))
  {
    if evs != [] {
      ReportsArePrescribed(Prefix(evs));
      StatusIsPrescribed(Prefix(evs));
      ReportStep(After(Prefix(evs)), Last(evs));
      PassedStep(Prefix(evs), Last(evs));
      assert evs == Prefix(evs) + [Last(evs)];
    }
  }

  /** Every run leaves the node as its history prescribes: the status, the readers, and the reports. */
  lemma RunsAreAsPrescribed(evs: seq<Event>)
    ensures After(evs).status == StatusOf(evs)
    ensures forall r :: r in After(evs).readers <==> Subscribed(evs, r)
    ensures After(evs).reported == Distinct(Passed(evs))
  {
    StatusIsPrescribed(evs);
    ReadersArePrescribed(evs);
    ReportsArePrescribed(evs);
  }

  lemma OneMoreEvent(evs: seq<Event>, ev: Event)
    ensures After(evs + [ev]) == Next(After(evs), ev)
  {
    assert Prefix(evs + [ev]) == evs;
  }

  /** The status in plain values: a ready event means connected; an error, a close or a failed construction means
      disconnected; a readiness outcome counts only before anything else is known; nothing else changes the status. */
  ghost predicate StatusLaw(ev: Event, before: Status, after: Status) {
    match ev
    case Ready => after == Connected
    case Errored => after == Disconnected
    case Closed => after == Disconnected
    case ConstructionFailed(_) => after == Disconnected
    case ReadinessResolved => after == if before == Connecting then Connected else before
    case ReadinessRejected(_) => after == if before == Connecting then Disconnected else before
    case _ => after == before
  }

  lemma StatusInValues(evs: seq<Event>, ev: Event)
    ensures After([]).status == Connecting && StatusLaw(ev, After(evs).status, After(evs + [ev]).status)
  {
    OneMoreEvent(evs, ev);
  }

  /** The reports in plain values: a category that is handed over is reported unless it is there already. */
  ghost predicate ReportsLaw(ev: Event, status: Status, before: seq<Category>, after: seq<Category>) {
    match ev
    case ConstructionFailed(c) => after == if c in before then before else before + [c]
    case ResourceFailed(c) => after == if c in before then before else before + [c]
    case ReadinessRejected(c) => after == if status != Connecting || c in before then before else before + [c]
    case CloseNode => after == []
    case _ => after == before
  }

  lemma ReportsInValues(evs: seq<Event>, ev: Event)
    ensures After([]).reported == []
    ensures ReportsLaw(ev, After(evs).status, After(evs).reported, After(evs + [ev]).reported)
  {
    OneMoreEvent(evs, ev);
  }

  lemma {:induction false} WatchedOnceBuilt(evs: seq<Event>)
    ensures After(evs).queue <==> QueueBuilt in evs
  {
    if evs != [] {
      WatchedOnceBuilt(Prefix(evs));
      assert evs == Prefix(evs) + [Last(evs)];
    }
  }

  // ---------- deliveries ----------

  /** What an event publishes. */
  function Published(v: View, ev: Event): Option<Status> {
    if Live(ev).Some? then Live(ev)
    else if v.status.Connecting? then Outcome(ev)
    else None
  }

  /** What an event tells one reader. */
  function ToldBy(v: View, ev: Event, r: Reader): Option<Status> {
    if ev == Subscribe(r) then Some(v.status)
    else if r in v.readers then Published(v, ev)
    else None
  }

  function Then(told: seq<Status>, more: Option<Status>): seq<Status> {
    if more.Some? then told + [more.value] else told
  }

  /** Everything a reader is ever told. */
  function Deliveries(evs: seq<Event>, r: Reader): seq<Status> {
    if evs == [] then [] else Then(Deliveries(Prefix(evs), r), ToldBy(After(Prefix(evs)), Last(evs), r))
  }

  /** What a reader is told in plain values: the status on arrival, and every status that is published while it stays. */
  ghost predicate DeliveryLaw(ev: Event, r: Reader, here: bool, status: Status, told: seq<Status>, after: seq<Status>) {
    match ev
    case Subscribe(q) => after == if q == r then told + [status] else told
    case Ready => after == if here then told + [Connected] else told
    case Errored => after == if here then told + [Disconnected] else told
    case Closed => after == if here then told + [Disconnected] else told
    case ConstructionFailed(_) => after == if here then told + [Disconnected] else told
    case ReadinessResolved => after == if here && status == Connecting then told + [Connected] else told
    case ReadinessRejected(_) => after == if here && status == Connecting then told + [Disconnected] else told
    case _ => after == told
  }

  lemma DeliveriesInValues(evs: seq<Event>, ev: Event, r: Reader)
    ensures DeliveryLaw(ev, r, Subscribed(evs, r), After(evs).status, Deliveries(evs, r), Deliveries(evs + [ev], r))
  {
    assert Prefix(evs + [ev]) == evs;
    ReadersArePrescribed(evs);
  }

  /** What an event tells a reader is the new status; it tells nothing only if the status stays. */
  lemma TellingIsTheStatus(v: View, ev: Event, r: Reader)
    requires r in Next(v, ev).readers
    ensures ev == Subscribe(r) || r in v.readers
    ensures if ToldBy(v, ev, r).None? then ev != Subscribe(r) && Next(v, ev).status == v.status
            else ToldBy(v, ev, r) == Some(Next(v, ev).status)
  {
  }

  lemma {:induction false} ReadersHold(evs: seq<Event>, r: Reader)
    requires r in After(evs).readers
    ensures Deliveries(evs, r) != [] && Last(Deliveries(evs, r)) == After(evs).status
  {
    var pre := Prefix(evs);
    TellingIsTheStatus(After(pre), Last(evs), r);
    if ToldBy(After(pre), Last(evs), r).None? {
      ReadersHold(pre, r);
    }
  }

  /** The last thing every current reader was told is the current status. */
  lemma ReadersAreUpToDate(evs: seq<Event>, r: Reader)
    requires Subscribed(evs, r)
    ensures Deliveries(evs, r) != [] && Last(Deliveries(evs, r)) == StatusOf(evs)
  {
    RunsAreAsPrescribed(evs);
    ReadersHold(evs, r);
  }

  /** Who is not subscribed hears nothing, whatever happens, until it subscribes again. */
  lemma {:induction false} OthersHearNothing(evs: seq<Event>, more: seq<Event>, r: Reader)
    requires !Subscribed(evs, r) && Subscribe(r) !in more
    ensures !Subscribed(evs + more, r) && Deliveries(evs + more, r) == Deliveries(evs, r)
    decreases |more|
  {
    if more == [] {
      assert evs + more == evs;
    } else {
      OthersHearNothing(evs, Prefix(more), r);
      assert Prefix(evs + more) == evs + Prefix(more) && Last(evs + more) == Last(more);
      RunsAreAsPrescribed(evs + Prefix(more));
      assert Last(more) in more;
    }
  }

  // ---------- the config node ----------

  /** What is attached to the backend of the shared queue. */
  datatype Listener = ReadyListener | ErrorListener | CloseListener

  const LISTENERS := [ReadyListener, ErrorListener, CloseListener]

  predicate Hears(l: Listener, ev: Event) {
    (l.ReadyListener? && ev.Ready?) || (l.ErrorListener? && ev.Errored?) || (l.CloseListener? && ev.Closed?)
  }

  predicate Heard(ls: seq<Listener>, ev: Event) {
    exists l | l in ls :: Hears(l, ev)
  }

  lemma HeardExactlyOnce(ev: Event, i: nat)
    requires (ev.Ready? || ev.Errored? || ev.Closed?) && i < |LISTENERS|
    ensures Heard(LISTENERS, ev)
    ensures Hears(LISTENERS[i], ev) ==> !Heard(LISTENERS[..i], ev)
    ensures Heard(LISTENERS[..i + 1], ev) <==> Heard(LISTENERS[..i], ev) || Hears(LISTENERS[i], ev)
  {
    assert Hears(LISTENERS[if ev.Ready? then 0 else if ev.Errored? then 1 else 2], ev);
    assert LISTENERS[..i + 1] == LISTENERS[..i] + [LISTENERS[i]];
    assert LISTENERS[..1] == [ReadyListener] && LISTENERS[..2] == [ReadyListener, ErrorListener];
  }

  /** What asking for the shared queue comes to: a queue, null, or an exception. */
  datatype Answer = Available | Unavailable | Escapes

  class ConfigNode {
    const postgres: bool
    var queue: bool
    var seeding: bool
    var listeners: seq<Listener>
    var backendStatus: Status
    var backendReaders: set<Reader>
    var backendFailures: set<Category>
    var reported: seq<Category>                    // node.error calls since the last close
    ghost var delivered: map<Reader, seq<Status>>  // everything each reader was ever told
    ghost var past: seq<Event>

    ghost function Told(r: Reader): seq<Status>
      reads this`delivered
    {
      if r in delivered then delivered[r] else []
    }

    ghost function Now(): View
      reads this`queue, this`seeding, this`backendStatus, this`backendReaders, this`reported
    {
      View(queue, seeding, backendStatus, backendReaders, reported)
    }

    /** The latch holds exactly the categories reported since the last close. */
    ghost predicate LatchMatches()
      reads this`backendFailures, this`reported
    {
      forall c :: c in backendFailures <==> c in reported
    }

    /** The backend has its three listeners, however many readers there are. */
    ghost predicate ListenersMatch()
      reads this`listeners, this`queue
    {
      listeners == if queue then LISTENERS else []
    }

    /** Every run of the class leaves the node as its history prescribes. */
    ghost predicate Valid()
      reads this
    {
      && Now() == After(past)
      && (forall r :: Told(r) == Deliveries(past, r))
      && LatchMatches()
      && ListenersMatch()
    }

    constructor (postgres: bool)
      ensures Valid() && past == [] && this.postgres == postgres
    {
      this.postgres := postgres;
      queue, seeding, listeners, backendStatus := false, false, [], Connecting;
      backendReaders, backendFailures, delivered, reported, past := {}, {}, map[], [], [];
    }

    /** Adds an event to the history, once the node has taken its step. */
    ghost method Record(ev: Event, before: View)
      requires before == After(past) && Now() == Next(before, ev)
      requires forall r :: Told(r) == Then(Deliveries(past, r), ToldBy(before, ev, r))
      modifies this`past
      ensures past == old(past) + [ev] && Now() == After(past) && forall r :: Told(r) == Deliveries(past, r)
    {
      past := past + [ev];
      assert Prefix(past) == old(past);
    }

    /** Calling a reader. */
    ghost method Tell(r: Reader, status: Status)
      modifies this`delivered
      ensures Told(r) == old(Told(r)) + [status] && forall q | q != r :: Told(q) == old(Told(q))
    {
      delivered := delivered[r := Told(r) + [status]];
    }

    /** Stores the status and tells every reader, in whatever order. */
    method Publish(status: Status)
      modifies this`backendStatus, this`delivered
      ensures backendStatus == status
      ensures forall r :: Told(r) == Then(old(Told(r)), if r in backendReaders then Some(status) else None)
    {
      backendStatus := status;
      var todo := backendReaders;
      while todo != {}
        invariant todo <= backendReaders && backendStatus == status
        invariant forall r :: Told(r) == Then(old(Told(r)), if r in backendReaders - todo then Some(status) else None)
        decreases todo
      {
        var r :| r in todo;
        Tell(r, status);
        todo := todo - {r};
      }
    }

    /** Reports a failure unless its category has been reported since the last close. */
    method ReportBackendFailure(category: Category)
      requires LatchMatches()
      modifies this`backendFailures, this`reported
      ensures LatchMatches()
      ensures reported == Once(old(reported), Some(category))
    {
      if category in backendFailures {
        return;
      }
      backendFailures := backendFailures + {category};
      reported := reported + [category];
    }

    /** Publishing and reporting a failure. */
    method Fail(category: Category)
      requires LatchMatches()
      modifies this`backendStatus, this`delivered, this`backendFailures, this`reported
      ensures LatchMatches() && backendStatus == Disconnected && reported == Once(old(reported), Some(category))
      ensures forall r :: Told(r) == Then(old(Told(r)), if r in backendReaders then Some(Disconnected) else None)
    {
      Publish(Disconnected);
      ReportBackendFailure(category);
    }

    /** Runs every listener attached for an event. As there is one for each, every reader is told once. */
    method RunListeners(ev: Event, status: Status)
      requires (ev.Ready? || ev.Errored? || ev.Closed?) && queue && ListenersMatch()
      modifies this`backendStatus, this`delivered
      ensures backendStatus == status
      ensures forall r :: Told(r) == Then(old(Told(r)), if r in backendReaders then Some(status) else None)
    {
      for i := 0 to |listeners|
        invariant Heard(listeners[..i], ev) ==> backendStatus == status
        invariant forall r ::
          Told(r) == Then(old(Told(r)), if r in backendReaders && Heard(listeners[..i], ev) then Some(status) else None)
      {
        HeardExactlyOnce(ev, i);
        if Hears(listeners[i], ev) {
          Publish(status);
        }
      }
      HeardExactlyOnce(ev, 0);
      assert listeners[..|listeners|] == LISTENERS;
    }

    /** The backend of the shared queue emits "ready", "error" or "close". */
    method Emit(ev: Event)
      requires Valid() && queue && (ev.Ready? || ev.Errored? || ev.Closed?)
      modifies this`backendStatus, this`delivered, this`past
      ensures Valid() && past == old(past) + [ev]
    {
      ghost var before := Now();
      RunListeners(ev, if ev.Ready? then Connected else Disconnected);
      Record(ev, before);
    }

    /** The readiness await ends well; a live event that came first has the better word. */
    method OnReadinessResolved()
      requires Valid() && seeding
      modifies this
      ensures Valid() && past == old(past) + [ReadinessResolved]
    {
      ghost var before := Now();
      seeding := false;
      if backendStatus == Connecting {
        Publish(Connected);
      }
      Record(ReadinessResolved, before);
    }

    /** The readiness await fails, which is reported only while nothing else is known. */
    method OnReadinessRejected(category: Category)
      requires Valid() && seeding
      modifies this
      ensures Valid() && past == old(past) + [ReadinessRejected(category)]
    {
      ghost var before := Now();
      seeding := false;
      if backendStatus == Connecting {
        Fail(category);
      }
      Record(ReadinessRejected(category), before);
    }

    /** A resource constructor that throws. Only on PostgreSQL is this caught. */
    method OnConstructionFailed(category: Category)
      requires Valid() && postgres
      modifies this
      ensures Valid() && past == old(past) + [ConstructionFailed(category)] && queue == old(queue)
    {
      ghost var before := Now();
      Fail(category);
      Record(ConstructionFailed(category), before);
    }

    method WatchBackend()
      modifies this`listeners, this`seeding
      ensures listeners == old(listeners) + LISTENERS && seeding
    {
      listeners := listeners + [ReadyListener];
      listeners := listeners + [ErrorListener];
      listeners := listeners + [CloseListener];
      seeding := true;
    }

    /** The shared queue, built at most once; only building it attaches listeners. A failed construction is tried again
        at the next call. On PostgreSQL it is published and reported, on Redis the exception escapes and nothing has
        changed. */
    method GetQueue(failure: Option<Category>) returns (answer: Answer)
      requires Valid()
      modifies this
      ensures Valid() && queue == (old(queue) || failure.None?)
      ensures answer == if queue then Available else if postgres then Unavailable else Escapes
      ensures past == old(past) +
        if old(queue) || (failure.Some? && !postgres) then []
        else if failure.Some? then [ConstructionFailed(failure.value)]
        else [QueueBuilt]
      ensures answer.Escapes? ==> Now() == old(Now()) && delivered == old(delivered)
    {
      if queue {
        return Available;
      }
      if failure.Some? {
        if !postgres {
          return Escapes;
        }
        OnConstructionFailed(failure.value);
        return Unavailable;
      }
      ghost var before := Now();
      queue := true;
      WatchBackend();
      Record(QueueBuilt, before);
      answer := Available;
    }

    /** Any other failure that a runtime node passes on. */
    method OnResourceFailed(category: Category)
      requires Valid()
      modifies this
      ensures Valid() && past == old(past) + [ResourceFailed(category)]
    {
      ghost var before := Now();
      ReportBackendFailure(category);
      Record(ResourceFailed(category), before);
    }

    /** A reader is told the current status at once. */
    method ReadBackendStatus(r: Reader)
      requires Valid()
      modifies this
      ensures Valid() && past == old(past) + [Subscribe(r)]
    {
      ghost var before := Now();
      backendReaders := backendReaders + {r};
      Tell(r, backendStatus);
      Record(Subscribe(r), before);
    }

    method StopReading(r: Reader)
      requires Valid()
      modifies this
      ensures Valid() && past == old(past) + [Unsubscribe(r)]
    {
      ghost var before := Now();
      backendReaders := backendReaders - {r};
      Record(Unsubscribe(r), before);
    }

    method OnClose()
      requires Valid()
      modifies this
      ensures Valid() && past == old(past) + [CloseNode]
    {
      ghost var before := Now();
      backendFailures := {};
      reported := [];
      Record(CloseNode, before);
    }

    /** The backend has three listeners from the moment the queue is built, whatever has been read or reported since. */
    lemma ListenersDoNotAddUp()
      requires Valid()
      ensures |listeners| == if QueueBuilt in past then 3 else 0
    {
      WatchedOnceBuilt(past);
    }
  }
}
