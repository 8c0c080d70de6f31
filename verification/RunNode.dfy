/**
 How a `bullmq run` node starts its worker, and where the failures of that worker go.

 On PostgreSQL the worker is started by hand once its readiness await has succeeded. Until then every failure is a
 startup failure, which the config node reports once per category; afterwards failures are the run node's own.
 */
module RunNode {
  import opened Histories
  import opened Wrappers

  import Backend = BackendStatus

  /** A failure, with the category that describeBackendFailure puts it in. */
  datatype Failure = Failure(category: Backend.Category, text: string)

  datatype Event =
    | ErrorEmitted(failure: Failure)        // the worker's "error" event
    | BecameReady                           // the worker's "ready" event, heeded on Redis only
    | ReadinessResolved                     // waitUntilReady(), awaited on PostgreSQL only
    | ReadinessRejected(failure: Failure)
    | RunResolved                           // run(), awaited on PostgreSQL only
    | RunRejected(failure: Failure)
    | CloseBegins                           // from here on worker.closing is set
    | ClosedEmitted

  /** How far startPostgresWorker has come. */
  datatype Phase = Starting | Running | Over

  /** `ready` is the flag of the error listener, `workerReady` that of startPostgresWorker; `runs` counts the calls of
      run(), `handed` and `errors` are the failures given to the config node and to node.error. */
  datatype View = View(
    status: Backend.Status,
    ready: bool,
    workerReady: bool,
    phase: Phase,
    closing: bool,
    runs: nat,
    handed: seq<Backend.Category>,
    errors: seq<Failure>)

  const INIT := View(Backend.Connecting, false, false, Starting, false, 0, [], [])

  /** startPostgresWorker awaits first the readiness of the worker and then its run; on Redis it is not there at all. */
  predicate Enabled(postgres: bool, v: View, ev: Event) {
    && (ev.BecameReady? ==> !postgres)
    && (ev.ReadinessResolved? || ev.ReadinessRejected? ==> postgres && v.phase.Starting?)
    && (ev.RunResolved? || ev.RunRejected? ==> postgres && v.phase.Running?)
  }

  /** The catch of startPostgresWorker. */
  function Stopped(v: View, f: Failure): View {
    if v.closing then v.(phase := Over)
    else if v.workerReady then v.(phase := Over, status := Backend.Disconnected, errors := v.errors + [f])
    else v.(phase := Over, status := Backend.Disconnected, handed := v.handed + [f.category])
  }

  function Next(postgres: bool, v: View, ev: Event): View {
    match ev
    case ErrorEmitted(f) =>
      var down := v.(status := Backend.Disconnected);
      if postgres && !v.ready then down.(handed := v.handed + [f.category]) else down.(errors := v.errors + [f])
    case BecameReady => v.(ready := true, status := Backend.Connected)
    case ReadinessResolved =>
      if v.closing then v.(phase := Over)
      else v.(ready := true, workerReady := true, status := Backend.Connected, phase := Running, runs := v.runs + 1)
    case ReadinessRejected(f) => Stopped(v, f)
    case RunResolved => v.(phase := Over)
    case RunRejected(f) => Stopped(v, f)
    case CloseBegins => v.(closing := true)
    case ClosedEmitted => v.(status := Backend.Disconnected)
  }

  function After(postgres: bool, evs: seq<Event>): View {
    if evs == [] then INIT else Next(postgres, After(postgres, Prefix(evs)), Last(evs))
  }

  predicate Possible(postgres: bool, evs: seq<Event>) {
    evs == [] || (Possible(postgres, Prefix(evs)) && Enabled(postgres, After(postgres, Prefix(evs)), Last(evs)))
  }

  lemma OneMoreEvent(postgres: bool, evs: seq<Event>, ev: Event, now: View)
    requires Possible(postgres, evs) && Enabled(postgres, After(postgres, evs), ev)
    requires now == Next(postgres, After(postgres, evs), ev)
    ensures Possible(postgres, evs + [ev]) && now == After(postgres, evs + [ev])
  {
    assert Prefix(evs + [ev]) == evs;
  }

  /** The status of the node in plain values. */
  ghost predicate StatusLaw(ev: Event, closing: bool, before: Backend.Status, after: Backend.Status) {
    match ev
    case ErrorEmitted(_) => after == Backend.Disconnected
    case BecameReady => after == Backend.Connected
    case ReadinessResolved => after == if closing then before else Backend.Connected
    case ReadinessRejected(_) => after == if closing then before else Backend.Disconnected
    case RunRejected(_) => after == if closing then before else Backend.Disconnected
    case ClosedEmitted => after == Backend.Disconnected
    case RunResolved => after == before
    case CloseBegins => after == before
  }

  lemma StatusInValues(postgres: bool, evs: seq<Event>, ev: Event)
    ensures After(postgres, []).status == Backend.Connecting
    ensures var v := After(postgres, evs);
      StatusLaw(ev, v.closing, v.status, After(postgres, evs + [ev]).status)
  {
    assert Prefix(evs + [ev]) == evs;
  }

  // ---------- what the history alone says ----------

  /** Whether the readiness await succeeded before the worker began to close. */
  predicate Started(evs: seq<Event>) {
    evs != [] && (Started(Prefix(evs)) || (Last(evs).ReadinessResolved? && CloseBegins !in Prefix(evs)))
  }

  /** The failures that count: all the worker emits, and those of the start unless the worker is closing. */
  function Heard(evs: seq<Event>): seq<Failure> {
    if evs == [] then []
    else
      match Last(evs)
      case ErrorEmitted(f) => Heard(Prefix(evs)) + [f]
      case ReadinessRejected(f) => if CloseBegins in Prefix(evs) then Heard(Prefix(evs)) else Heard(Prefix(evs)) + [f]
      case RunRejected(f) => if CloseBegins in Prefix(evs) then Heard(Prefix(evs)) else Heard(Prefix(evs)) + [f]
      case _ => Heard(Prefix(evs))
  }

  function Categories(fs: seq<Failure>): seq<Backend.Category> {
    seq(|fs|, i requires 0 <= i < |fs| => fs[i].category)
  }

  /** The failures heard before and after the start of the worker. */
  function HeardBefore(evs: seq<Event>): seq<Failure> {
    if evs == [] then [] else if Started(Prefix(evs)) then HeardBefore(Prefix(evs)) else Heard(evs)
  }

  function HeardSince(evs: seq<Event>): seq<Failure>
    requires HeardBefore(evs) <= Heard(evs)
  {
    Heard(evs)[|HeardBefore(evs)|..]
  }

  lemma {:induction false} BeforeComesFirst(evs: seq<Event>)
    ensures HeardBefore(evs) <= Heard(evs)
    ensures !Started(evs) ==> HeardBefore(evs) == Heard(evs)
  {
    if evs != [] {
      BeforeComesFirst(Prefix(evs));
    }
  }

  /** The worker is run at most once, exactly if its readiness came before its close, and the two ready flags never
      disagree. */
  lemma {:induction false} RunsOnceWhenReady(evs: seq<Event>)
    requires Possible(true, evs)
    ensures var v := After(true, evs);
      && v.runs == (if Started(evs) then 1 else 0)
      && v.ready == v.workerReady == Started(evs)
      && (v.phase.Starting? ==> !Started(evs)) && (v.phase.Running? ==> Started(evs))
      && v.closing == (CloseBegins in evs)
  {
    if evs != [] {
      RunsOnceWhenReady(Prefix(evs));
      assert evs == Prefix(evs) + [Last(evs)];
    }
  }

  /** On PostgreSQL exactly the failures heard before the worker is started go to the config node, and exactly those
      heard since go to node.error: none is lost, and none is reported twice. */
  lemma {:induction false} StartupFailuresGoToTheConfigNode(evs: seq<Event>)
    requires Possible(true, evs)
    ensures HeardBefore(evs) <= Heard(evs)
    ensures After(true, evs).handed == Categories(HeardBefore(evs))
    ensures After(true, evs).errors == HeardSince(evs)
  {
    BeforeComesFirst(evs);
    if evs != [] {
      var pre := Prefix(evs);
      BeforeComesFirst(pre);
      RunsOnceWhenReady(pre);
      StartupFailuresGoToTheConfigNode(pre);
    }
  }

  /** On Redis every failure is the run node's own. */
  lemma {:induction false} RedisFailuresStay(evs: seq<Event>)
    requires Possible(false, evs)
    ensures After(false, evs).handed == [] && After(false, evs).errors == Heard(evs)
  {
    if evs != [] {
      RedisFailuresStay(Prefix(evs));
    }
  }

  // ---------- several nodes on one config node ----------

  /** What happens to one of the run nodes of a PostgreSQL config node, or to the config node itself. */
  datatype JointEvent = AtNode(node: nat, event: Event) | AtConfig(own: Backend.Event)

  function EventsOf(evs: seq<JointEvent>, n: nat): seq<Event> {
    if evs == [] then []
    else if Last(evs).AtNode? && Last(evs).node == n then EventsOf(Prefix(evs), n) + [Last(evs).event]
    else EventsOf(Prefix(evs), n)
  }

  ghost predicate JointlyPossible(evs: seq<JointEvent>) {
    forall n :: Possible(true, EventsOf(evs, n))
  }

  /** What a node passes on to the config node. */
  function PassesOn(v: View, ev: Event): seq<Backend.Event> {
    match ev
    case ErrorEmitted(f) => if v.ready then [] else [Backend.ResourceFailed(f.category)]
    case ReadinessRejected(f) => if v.closing || v.workerReady then [] else [Backend.ResourceFailed(f.category)]
    case RunRejected(f) => if v.closing || v.workerReady then [] else [Backend.ResourceFailed(f.category)]
    case _ => []
  }

  /** The history of the config node: its own events, and what its nodes pass on. */
  function ConfigEvents(evs: seq<JointEvent>): seq<Backend.Event> {
    if evs == [] then []
    else
      ConfigEvents(Prefix(evs)) +
      match Last(evs)
      case AtConfig(ev) => [ev]
      case AtNode(n, ev) => PassesOn(After(true, EventsOf(Prefix(evs), n)), ev)
  }

  /** The category of a start-up failure, given what has happened to the node before. */
  function StartupFailure(before: seq<Event>, ev: Event): Option<Backend.Category> {
    if Started(before) then None
    else
      match ev
      case ErrorEmitted(f) => Some(f.category)
      case ReadinessRejected(f) => if CloseBegins in before then None else Some(f.category)
      case _ => None
  }

  /** Whether some node has had a start-up failure of a category since the config node closed last. */
  predicate FailedSince(evs: seq<JointEvent>, c: Backend.Category) {
    evs != [] && Last(evs) != AtConfig(Backend.CloseNode) &&
    (FailedSince(Prefix(evs), c) ||
     (Last(evs).AtNode? && StartupFailure(EventsOf(Prefix(evs), Last(evs).node), Last(evs).event) == Some(c)))
  }

  /** Whether the config node has come upon such a failure itself, or been handed one by somebody else. */
  predicate HandedSince(evs: seq<JointEvent>, c: Backend.Category) {
    evs != [] && Last(evs) != AtConfig(Backend.CloseNode) &&
    (HandedSince(Prefix(evs), c) ||
     (Last(evs).AtConfig? && Backend.Handed(Last(evs).own, Backend.StatusOf(ConfigEvents(Prefix(evs)))) == Some(c)))
  }

  lemma PossibleBefore(evs: seq<JointEvent>)
    requires evs != [] && JointlyPossible(evs)
    ensures JointlyPossible(Prefix(evs))
    ensures Last(evs).AtNode? ==>
      Enabled(true, After(true, EventsOf(Prefix(evs), Last(evs).node)), Last(evs).event)
  {
    forall n ensures Possible(true, EventsOf(Prefix(evs), n)) {
      assert Possible(true, EventsOf(evs, n));
      if Last(evs).AtNode? && Last(evs).node == n {
        assert Prefix(EventsOf(evs, n)) == EventsOf(Prefix(evs), n);
      }
    }
    if Last(evs).AtNode? {
      var n := Last(evs).node;
      assert Possible(true, EventsOf(evs, n));
      assert Prefix(EventsOf(evs, n)) == EventsOf(Prefix(evs), n);
    }
  }

  /** A node passes on exactly its start-up failures. */
  lemma PassedOnAreStartupFailures(before: seq<Event>, ev: Event)
    requires Possible(true, before) && Enabled(true, After(true, before), ev)
    ensures PassesOn(After(true, before), ev) ==
              match StartupFailure(before, ev)
              case Some(c) => [Backend.ResourceFailed(c)]
              case None => []
  {
    RunsOnceWhenReady(before);
  }

  lemma PassedByOneMore(evs: seq<Backend.Event>, more: seq<Backend.Event>, c: Backend.Category)
    requires |more| <= 1
    ensures c in Backend.Passed(evs + more) <==>
              if more == [] then c in Backend.Passed(evs)
              else !more[0].CloseNode? &&
                   (c in Backend.Passed(evs) || Backend.Handed(more[0], Backend.StatusOf(evs)) == Some(c))
  {
    if more == [] {
      assert evs + more == evs;
    } else {
      assert Prefix(evs + more) == evs && Last(evs + more) == more[0];
    }
  }

  lemma {:induction false} PassedIsWhatFailed(evs: seq<JointEvent>, c: Backend.Category)
    requires JointlyPossible(evs)
    ensures c in Backend.Passed(ConfigEvents(evs)) <==> FailedSince(evs, c) || HandedSince(evs, c)
  {
    if evs != [] {
      var pre := Prefix(evs);
      PossibleBefore(evs);
      PassedIsWhatFailed(pre, c);
      match Last(evs)
      case AtConfig(ev) => PassedByOneMore(ConfigEvents(pre), [ev], c);
      case AtNode(n, ev) =>
        PassedOnAreStartupFailures(EventsOf(pre, n), ev);
        PassedByOneMore(ConfigEvents(pre), PassesOn(After(true, EventsOf(pre, n)), ev), c);
    }
  }

  /** However many run nodes share a config node and however their events interleave, between two closes of the config
      node it reports every category of their start-up failures, and nothing that nobody came upon, each once. */
  lemma StartupFailuresOncePerEpoch(evs: seq<JointEvent>)
    requires JointlyPossible(evs)
    ensures var reported := Backend.After(ConfigEvents(evs)).reported;
      && (forall c :: c in reported <==> FailedSince(evs, c) || HandedSince(evs, c))
      && forall i, j | 0 <= i < j < |reported| :: reported[i] != reported[j]
  {
    Backend.RunsAreAsPrescribed(ConfigEvents(evs));
    Backend.DistinctIsExact(Backend.Passed(ConfigEvents(evs)));
    forall c ensures c in Backend.Passed(ConfigEvents(evs)) <==> FailedSince(evs, c) || HandedSince(evs, c) {
      PassedIsWhatFailed(evs, c);
    }
  }

  // ---------- the node ----------

  /** A run node whose worker could be built. */
  class Node {
    const config: Backend.ConfigNode
    var status: Backend.Status
    var ready: bool
    var workerReady: bool
    var phase: Phase
    var closing: bool
    var errors: seq<Failure>
    ghost var runs: nat
    ghost var handed: seq<Backend.Category>
    ghost var past: seq<Event>

    ghost function Now(): View
      reads this`status, this`ready, this`workerReady, this`phase, this`closing, this`runs, this`handed, this`errors
    {
      View(status, ready, workerReady, phase, closing, runs, handed, errors)
    }

    ghost predicate Valid()
      reads this
    {
      Possible(config.postgres, past) && Now() == After(config.postgres, past)
    }

    constructor (config: Backend.ConfigNode)
      ensures Valid() && past == [] && this.config == config
    {
      this.config := config;
      status, ready, workerReady, phase, closing := Backend.Connecting, false, false, Starting, false;
      errors, runs, handed, past := [], 0, [], [];
    }

    ghost method Record(ev: Event, before: View)
      requires Possible(config.postgres, past) && before == After(config.postgres, past)
      requires Enabled(config.postgres, before, ev) && Now() == Next(config.postgres, before, ev)
      modifies this`past
      ensures Valid() && past == old(past) + [ev]
    {
      OneMoreEvent(config.postgres, past, ev, Now());
      past := past + [ev];
    }

    /** Passes a failure on to the config node. */
    method HandOver(failure: Failure)
      requires config.Valid()
      modifies this`handed, config
      ensures config.Valid() && config.past == old(config.past) + [Backend.ResourceFailed(failure.category)]
      ensures handed == old(handed) + [failure.category]
    {
      config.OnResourceFailed(failure.category);
      handed := handed + [failure.category];
    }

    /** The "error" listener of attachErrorListener. */
    method OnError(failure: Failure)
      requires Valid() && config.Valid()
      modifies this, config
      ensures Valid() && past == old(past) + [ErrorEmitted(failure)] && config.Valid()
      ensures config.past == old(config.past) +
        if config.postgres then PassesOn(old(Now()), ErrorEmitted(failure)) else []
    {
      ghost var before := Now();
      status := Backend.Disconnected;
      if config.postgres && !ready {
        HandOver(failure);
      } else {
        errors := errors + [failure];
      }
      Record(ErrorEmitted(failure), before);
    }

    /** The "ready" listener, on Redis. */
    method OnReady()
      requires Valid() && !config.postgres
      modifies this
      ensures Valid() && past == old(past) + [BecameReady]
    {
      ghost var before := Now();
      ready := true;
      status := Backend.Connected;
      Record(BecameReady, before);
    }

    /** startPostgresWorker goes on after waitUntilReady(); `run` tells whether it calls run(). */
    method OnReadinessResolved() returns (run: bool)
      requires Valid() && config.postgres && phase.Starting?
      modifies this
      ensures Valid() && past == old(past) + [ReadinessResolved]
      ensures run == !old(closing)
    {
      ghost var before := Now();
      if closing {
        phase := Over;
        run := false;
      } else {
        workerReady := true;
        ready := true;
        status := Backend.Connected;
        phase, runs, run := Running, runs + 1, true;
      }
      Record(ReadinessResolved, before);
    }

    /** The catch of startPostgresWorker: either await has failed. */
    method OnStartFailed(failure: Failure)
      requires Valid() && config.Valid() && config.postgres && !phase.Over?
      modifies this, config
      ensures Valid() && config.Valid()
      ensures past == old(past) + [if old(phase).Starting? then ReadinessRejected(failure) else RunRejected(failure)]
      ensures config.past == old(config.past) + PassesOn(old(Now()), Last(past))
    {
      ghost var before := Now();
      phase := Over;
      if !closing {
        status := Backend.Disconnected;
        if workerReady {
          errors := errors + [failure];
        } else {
          HandOver(failure);
        }
      }
      Record(if before.phase.Starting? then ReadinessRejected(failure) else RunRejected(failure), before);
    }

    method OnRunResolved()
      requires Valid() && config.postgres && phase.Running?
      modifies this
      ensures Valid() && past == old(past) + [RunResolved]
    {
      ghost var before := Now();
      phase := Over;
      Record(RunResolved, before);
    }

    method BeginClosing()
      requires Valid()
      modifies this
      ensures Valid() && past == old(past) + [CloseBegins]
    {
      ghost var before := Now();
      closing := true;
      Record(CloseBegins, before);
    }

    method OnClosed()
      requires Valid()
      modifies this
      ensures Valid() && past == old(past) + [ClosedEmitted]
    {
      ghost var before := Now();
      status := Backend.Disconnected;
      Record(ClosedEmitted, before);
    }
  }
}
