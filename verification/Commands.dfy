/**
 The `stopAndRemoveAllJobs` command on an abstract queue whose calls may fail at any point.
 */
module Commands {
  import opened Wrappers

  type JobId = nat
  type SchedulerId = nat

  datatype JobState = Active | Waiting | WaitingChildren | Prioritized | Delayed | Completed | Failed

  /** A listed scheduler; an empty id or key counts as absent. */
  datatype Scheduler = Scheduler(id: Option<SchedulerId>, key: Option<SchedulerId>)

  function IdOf(s: Scheduler): Option<SchedulerId> {
    if s.id.Some? then s.id else s.key
  }

  function ToSeq(id: Option<SchedulerId>): seq<SchedulerId> {
    if id.Some? then [id.value] else []
  }

  /** The ids under which the listed schedulers can be removed, in listing order. */
  function Ids(listing: seq<Scheduler>): seq<SchedulerId> {
    if listing == [] then []
    else Ids(listing[..|listing| - 1]) + ToSeq(IdOf(listing[|listing| - 1]))
  }

  function Elements(ids: seq<SchedulerId>): set<SchedulerId> {
    set i | i in ids
  }

  /** Whether `reported` names the listed schedulers in listing order: each by its id, or by its key if it has no id, and
      one that has neither not at all. */
  ghost predicate NamesInOrder(listing: seq<Scheduler>, reported: seq<SchedulerId>) {
    if listing == [] then reported == []
    else
      match listing[0]
      case Scheduler(Some(id), _) => reported != [] && reported[0] == id && NamesInOrder(listing[1..], reported[1..])
      case Scheduler(None, Some(key)) => reported != [] && reported[0] == key && NamesInOrder(listing[1..], reported[1..])
      case Scheduler(None, None) => NamesInOrder(listing[1..], reported)
  }

  lemma {:induction false} IdsOfSum(a: seq<Scheduler>, b: seq<Scheduler>)
    ensures Ids(a + b) == Ids(a) + Ids(b)
    decreases |b|
  {
    if b == [] {
      assert a + b == a;
    } else {
      IdsOfSum(a, b[..|b| - 1]);
      assert (a + b)[..|a + b| - 1] == a + b[..|b| - 1];
    }
  }

  lemma IdsOfOne(s: Scheduler)
    ensures Ids([s]) == ToSeq(IdOf(s))
  {
    assert [s][..0] == [];
  }

  /** The ids are the names in order. */
  lemma {:induction false} IdsAreNames(listing: seq<Scheduler>)
    ensures NamesInOrder(listing, Ids(listing))
  {
    if listing != [] {
      IdsOfSum([listing[0]], listing[1..]);
      IdsOfOne(listing[0]);
      assert [listing[0]] + listing[1..] == listing;
      IdsAreNames(listing[1..]);
      var first, rest := ToSeq(IdOf(listing[0])), Ids(listing[1..]);
      assert Ids(listing) == first + rest;
      if first == [] {
        assert first + rest == rest;
      } else {
        assert (first + rest)[1..] == rest;
      }
    }
  }

  /** So every listed scheduler with an id is named by it, every one with only a key by that, and nothing else is. */
  lemma {:induction false} NamesCoverTheListing(listing: seq<Scheduler>, reported: seq<SchedulerId>)
    requires NamesInOrder(listing, reported)
    ensures forall s | s in listing && s.id.Some? :: s.id.value in reported
    ensures forall s | s in listing && s.id.None? && s.key.Some? :: s.key.value in reported
    ensures forall x | x in reported :: exists s | s in listing :: s.id == Some(x) || (s.id.None? && s.key == Some(x))
  {
    if listing != [] {
      var named := listing[0].id.Some? || listing[0].key.Some?;
      NamesCoverTheListing(listing[1..], if named then reported[1..] else reported);
      assert listing == [listing[0]] + listing[1..];
      if named {
        assert reported == [reported[0]] + reported[1..];
      }
    }
  }

  /** Every listed scheduler is removed and reported under its id, or under its key if it has no id, in listing order, and
      no other one is. */
  ghost predicate RemovedInOrder(listing: seq<Scheduler>, before: set<SchedulerId>, after: set<SchedulerId>,
                                 reported: seq<SchedulerId>)
  {
    && NamesInOrder(listing, reported)
    && (forall s | s in listing && s.id.Some? :: s.id.value in reported && s.id.value !in after)
    && (forall s | s in listing && s.id.None? && s.key.Some? :: s.key.value in reported && s.key.value !in after)
    && (forall x | x in reported :: exists s | s in listing :: s.id == Some(x) || (s.id.None? && s.key == Some(x)))
    && forall x :: x in after <==> x in before && x !in reported
  }

  lemma ListedAreRemoved(listing: seq<Scheduler>, before: set<SchedulerId>)
    ensures RemovedInOrder(listing, before, before - Elements(Ids(listing)), Ids(listing))
  {
    IdsAreNames(listing);
    NamesCoverTheListing(listing, Ids(listing));
  }

  const CLEAN_STATES := [Completed, Failed, Delayed, Waiting]

  type Jobs = map<JobState, set<JobId>>

  function In(jobs: Jobs, s: JobState): set<JobId> {
    if s in jobs then jobs[s] else {}
  }

  /** The delayed jobs that a scheduler has in store. */
  function Stored(upcoming: map<SchedulerId, set<JobId>>, id: SchedulerId): set<JobId> {
    if id in upcoming then upcoming[id] else {}
  }

  /** What a state loses to the removal of schedulers. */
  function Upcoming(upcoming: map<SchedulerId, set<JobId>>, ids: seq<SchedulerId>, s: JobState): set<JobId> {
    if ids == [] || s != Delayed then {}
    else Upcoming(upcoming, ids[..|ids| - 1], s) + Stored(upcoming, ids[|ids| - 1])
  }

  lemma UpcomingStep(upcoming: map<SchedulerId, set<JobId>>, ids: seq<SchedulerId>, id: SchedulerId)
    ensures forall s :: Upcoming(upcoming, ids + [id], s) ==
                          Upcoming(upcoming, ids, s) + if s == Delayed then Stored(upcoming, id) else {}
  {
    assert (ids + [id])[..|ids|] == ids;
  }

  /** What the library's calls do: the schedulers they list, the delayed jobs that go with a removed scheduler, and
      the states that draining empties. */
  datatype Backend = Backend(listing: seq<Scheduler>, upcoming: map<SchedulerId, set<JobId>>, drained: set<JobState>)

  /** Draining is for waiting and delayed jobs; which other inactive ones it takes along is up to the library. */
  predicate DrainsInactive(backend: Backend) {
    {Waiting, Delayed} <= backend.drained && Active !in backend.drained
  }

  /** The queue as the command sees it. `lasts` is how many more calls succeed; the next one throws. */
  class Queue {
    const backend: Backend
    var schedulers: set<SchedulerId>
    var jobs: Jobs
    var lasts: nat

    constructor (backend: Backend, schedulers: set<SchedulerId>, jobs: Jobs, lasts: nat)
      ensures this.backend == backend && this.schedulers == schedulers && this.jobs == jobs && this.lasts == lasts
    {
      this.backend, this.schedulers, this.jobs, this.lasts := backend, schedulers, jobs, lasts;
    }

    method RemoveJobScheduler(id: SchedulerId) returns (ok: bool)
      modifies this
      ensures ok <==> old(lasts) > 0
      ensures lasts == old(lasts) - if ok then 1 else 0
      ensures schedulers == if ok then old(schedulers) - {id} else old(schedulers)
      ensures forall s :: In(jobs, s) == In(old(jobs), s) - if ok && s == Delayed then Stored(backend.upcoming, id) else {}
    {
      ok := lasts > 0;
      if ok {
        schedulers, lasts := schedulers - {id}, lasts - 1;
        jobs := jobs[Delayed := In(jobs, Delayed) - Stored(backend.upcoming, id)];
      }
    }

    method Drain() returns (ok: bool)
      modifies this`jobs, this`lasts
      ensures ok <==> old(lasts) > 0
      ensures lasts == old(lasts) - if ok then 1 else 0
      ensures forall s :: In(jobs, s) == if ok && s in backend.drained then {} else In(old(jobs), s)
    {
      ok := lasts > 0;
      if ok {
        lasts := lasts - 1;
        jobs := map s | s in jobs && s !in backend.drained :: jobs[s];
      }
    }

    method Clean(state: JobState) returns (ok: bool, removed: set<JobId>)
      modifies this`jobs, this`lasts
      ensures ok <==> old(lasts) > 0
      ensures lasts == old(lasts) - if ok then 1 else 0
      ensures ok ==> removed == In(old(jobs), state)
      ensures forall s :: In(jobs, s) == if ok && s == state then {} else In(old(jobs), s)
    {
      ok, removed := lasts > 0, {};
      if ok {
        lasts, removed := lasts - 1, In(jobs, state);
        jobs := jobs[state := {}];
      }
    }
  }

  datatype Report = Report(removedSchedulers: seq<SchedulerId>, cleaned: map<JobState, set<JobId>>)

  lemma {:induction false} IdsOfPrefix(listing: seq<Scheduler>, n: nat)
    requires n <= |listing|
    ensures Ids(listing[..n]) <= Ids(listing)
    decreases |listing|
  {
    if n < |listing| {
      IdsOfPrefix(listing[..|listing| - 1], n);
      assert listing[..|listing| - 1][..n] == listing[..n];
    } else {
      assert listing[..n] == listing;
    }
  }

  lemma IdsStep(listing: seq<Scheduler>, i: nat)
    requires i < |listing|
    ensures Ids(listing[..i + 1]) == Ids(listing[..i]) + ToSeq(IdOf(listing[i])) <= Ids(listing)
  {
    assert listing[..i + 1][..i] == listing[..i];
    IdsOfPrefix(listing, i + 1);
  }

  /** The first loop: removes the listed schedulers in order, until a removal throws. */
  method RemoveSchedulers(queue: Queue) returns (ok: bool, removed: seq<SchedulerId>)
    modifies queue
    ensures ok <==> old(queue.lasts) >= |Ids(queue.backend.listing)|
    ensures removed <= Ids(queue.backend.listing) && |removed| == if ok then |Ids(queue.backend.listing)| else old(queue.lasts)
    ensures queue.schedulers == old(queue.schedulers) - Elements(removed)
    ensures forall s :: In(queue.jobs, s) == In(old(queue.jobs), s) - Upcoming(queue.backend.upcoming, removed, s)
    ensures queue.lasts == old(queue.lasts) - |removed|
  {
    removed := [];
    for i := 0 to |queue.backend.listing|
      invariant removed == Ids(queue.backend.listing[..i]) && |removed| + queue.lasts == old(queue.lasts)
      invariant queue.schedulers == old(queue.schedulers) - Elements(removed)
      invariant forall s :: In(queue.jobs, s) == In(old(queue.jobs), s) - Upcoming(queue.backend.upcoming, removed, s)
    {
      IdsStep(queue.backend.listing, i);
      var id := IdOf(queue.backend.listing[i]);
      if id.Some? {
        var done := queue.RemoveJobScheduler(id.value);
        if !done {
          return false, removed;
        }
        UpcomingStep(queue.backend.upcoming, removed, id.value);
        assert Elements(removed + [id.value]) == Elements(removed) + {id.value};
        removed := removed + [id.value];
      }
    }
    assert queue.backend.listing[..|queue.backend.listing|] == queue.backend.listing;
    ok := true;
  }

  /** How many of the four states are cleaned when `calls` more calls succeed. */
  function CleansWith(calls: int): (n: nat)
    ensures n <= |CLEAN_STATES|
  {
    if calls <= 0 then 0 else if calls < |CLEAN_STATES| then calls else |CLEAN_STATES|
  }

  /** The second loop: cleans the four states in order, until a call throws. */
  method CleanStates(queue: Queue) returns (ok: bool, cleaned: map<JobState, set<JobId>>)
    modifies queue`jobs, queue`lasts
    ensures ok <==> old(queue.lasts) >= |CLEAN_STATES|
    ensures forall s :: s in cleaned <==> s in CLEAN_STATES[..CleansWith(old(queue.lasts))]
    ensures forall s | s in cleaned :: cleaned[s] == In(old(queue.jobs), s)
    ensures forall s :: In(queue.jobs, s) == if s in cleaned then {} else In(old(queue.jobs), s)
  {
    cleaned := map[];
    for i := 0 to |CLEAN_STATES|
      invariant queue.lasts == old(queue.lasts) - i
      invariant forall s :: s in cleaned <==> s in CLEAN_STATES[..i]
      invariant forall s | s in cleaned :: cleaned[s] == In(old(queue.jobs), s)
      invariant forall s :: In(queue.jobs, s) == if s in cleaned then {} else In(old(queue.jobs), s)
    {
      var jobs;
      ok, jobs := queue.Clean(CLEAN_STATES[i]);
      if !ok {
        return;
      }
      cleaned := cleaned[CLEAN_STATES[i] := jobs];
    }
    ok := true;
  }

  // ---------- the whole command ----------

  /** How far a command gets whose first `calls` calls succeed: what it has removed, whether it has drained, and what
      it has cleaned. The first call lists the schedulers. */
  function RemovedWith(ids: seq<SchedulerId>, calls: nat): seq<SchedulerId> {
    if calls == 0 then [] else if calls - 1 < |ids| then ids[..calls - 1] else ids
  }

  predicate Drains(ids: seq<SchedulerId>, calls: nat) {
    calls > 1 + |ids|
  }

  predicate Cleans(ids: seq<SchedulerId>, calls: nat, s: JobState) {
    s in CLEAN_STATES[..CleansWith(calls - 2 - |ids|)]
  }

  /** The jobs a state is left with when `calls` calls succeed. */
  function LeftIn(backend: Backend, jobs: Jobs, calls: nat, s: JobState): set<JobId> {
    var ids := Ids(backend.listing);
    if (Drains(ids, calls) && s in backend.drained) || Cleans(ids, calls, s) then {}
    else In(jobs, s) - Upcoming(backend.upcoming, RemovedWith(ids, calls), s)
  }

  /** How far a command gets, in numbers: the listing is one call, every removal one, draining one, every cleaning one. */
  lemma CallsInNumbers(ids: seq<SchedulerId>, calls: nat, cleans: nat, s: JobState)
    ensures calls == 0 ==> RemovedWith(ids, calls) == []
    ensures 1 <= calls <= |ids| + 1 ==> RemovedWith(ids, calls) == ids[..calls - 1]
    ensures calls > |ids| ==> RemovedWith(ids, calls) == ids
    ensures Drains(ids, calls) <==> calls >= |ids| + 2
    ensures calls <= |ids| + 2 ==> !Cleans(ids, calls, s)
    ensures calls == |ids| + 2 + cleans && cleans <= 4 ==>
      (Cleans(ids, calls, s) <==> s in [Completed, Failed, Delayed, Waiting][..cleans])
  {
    assert ids[..|ids|] == ids;
  }

  /** How many calls the command makes. */
  function CallsOf(backend: Backend): nat {
    1 + |Ids(backend.listing)| + 1 + |CLEAN_STATES|
  }

  /** Listing the schedulers and removing them. */
  method ListAndRemove(queue: Queue) returns (ok: bool, removed: seq<SchedulerId>)
    modifies queue
    ensures ok <==> old(queue.lasts) >= 1 + |Ids(queue.backend.listing)|
    ensures removed == RemovedWith(Ids(queue.backend.listing), old(queue.lasts))
    ensures queue.schedulers == old(queue.schedulers) - Elements(removed)
    ensures forall s :: In(queue.jobs, s) == In(old(queue.jobs), s) - Upcoming(queue.backend.upcoming, removed, s)
    ensures ok ==> queue.lasts == old(queue.lasts) - 1 - |removed|
  {
    if queue.lasts == 0 {
      assert Elements([]) == {};
      return false, [];
    }
    queue.lasts := queue.lasts - 1;
    ok, removed := RemoveSchedulers(queue);
  }

  /** Listing, removing every scheduler that has an id, draining, cleaning. The result is None when a call throws; what
      the calls before it have done stays done, and nothing else is. */
  method StopAndRemoveAllJobs(queue: Queue) returns (report: Option<Report>)
    requires DrainsInactive(queue.backend)
    modifies queue
    ensures report.Some? <==> old(queue.lasts) >= CallsOf(queue.backend)
    ensures queue.schedulers == old(queue.schedulers) - Elements(RemovedWith(Ids(queue.backend.listing), old(queue.lasts)))
    ensures forall s :: In(queue.jobs, s) == LeftIn(queue.backend, old(queue.jobs), old(queue.lasts), s)
    ensures report.Some? ==> report.value.removedSchedulers == Ids(queue.backend.listing)
    ensures report.Some? ==>
      RemovedInOrder(queue.backend.listing, old(queue.schedulers), queue.schedulers, report.value.removedSchedulers)
    ensures report.Some? ==> forall s :: s in report.value.cleaned <==> s in CLEAN_STATES
    // what was drained or had been in store is not counted as cleaned
    ensures report.Some? ==> forall s | s in CLEAN_STATES ::
      report.value.cleaned[s] == if s in queue.backend.drained then {} else In(old(queue.jobs), s)
  {
    var ok, removed := ListAndRemove(queue);
    if !ok {
      return None;
    }
    ok := queue.Drain();
    if !ok {
      return None;
    }
    var cleaned;
    ok, cleaned := CleanStates(queue);
    if !ok {
      return None;
    }
    ListedAreRemoved(queue.backend.listing, old(queue.schedulers));
    report := Some(Report(removed, cleaned));
  }

  // ---------- what is left ----------

  /** Active jobs are never touched, however far the command gets. */
  lemma ActiveJobsStay(backend: Backend, jobs: Jobs, calls: nat)
    requires DrainsInactive(backend)
    ensures LeftIn(backend, jobs, calls, Active) == In(jobs, Active)
  {
    var ids := Ids(backend.listing);
    assert Cleans(ids, calls, Active) ==> Active in CLEAN_STATES;
  }

  /** A command that succeeds empties every inactive state exactly if there are no parents waiting for their children,
      and no prioritized jobs unless draining takes them; these are the only states it does not clean. */
  lemma InactiveJobsGo(backend: Backend, jobs: Jobs, calls: nat)
    requires DrainsInactive(backend) && calls >= CallsOf(backend)
    ensures forall s | s in CLEAN_STATES :: LeftIn(backend, jobs, calls, s) == {}
    ensures (forall s | s != Active :: LeftIn(backend, jobs, calls, s) == {}) <==>
              forall s | s in {WaitingChildren, Prioritized} - backend.drained :: In(jobs, s) == {}
  {
    var ids := Ids(backend.listing);
    assert CleansWith(calls - 2 - |ids|) == |CLEAN_STATES| && CLEAN_STATES[..|CLEAN_STATES|] == CLEAN_STATES;
    forall s ensures Cleans(ids, calls, s) <==> s in CLEAN_STATES {
    }
    forall s | s in {WaitingChildren, Prioritized} - backend.drained
      ensures s !in CLEAN_STATES && LeftIn(backend, jobs, calls, s) == In(jobs, s)
    {
    }
    forall s | s != Active && s !in CLEAN_STATES ensures s in {WaitingChildren, Prioritized} {
      assert CLEAN_STATES[0] == Completed && CLEAN_STATES[1] == Failed;
      assert CLEAN_STATES[2] == Delayed && CLEAN_STATES[3] == Waiting;
    }
  }

  /** A queue whose inactive jobs are not all cleaned: a parent outlives the command. */
  lemma ParentsStay(parent: JobId)
    ensures var backend := Backend([], map[], {Waiting, Delayed, Prioritized});
      LeftIn(backend, map[WaitingChildren := {parent}], CallsOf(backend), WaitingChildren) == {parent}
  {
    assert forall s | s in CLEAN_STATES :: s != WaitingChildren;
    assert Cleans([], 6, WaitingChildren) ==> WaitingChildren in CLEAN_STATES;
  }
}
