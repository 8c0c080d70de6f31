/**
 Who closes what: the config node's table of owners and their companion connections.

 Runtime nodes release their owners and the config node closes all that are left, in any interleaving; each event is
 the code up to its first await, which nothing can interrupt. Closing a pair takes the time Shutdown says it takes.
 */
module Ownership {
  import opened Histories
  import opened Shutdown

  type OwnerId = nat

  /** What happens to the table, and when. */
  datatype Event =
    | Create(owner: OwnerId, pair: Pair)
    | Release(owner: OwnerId, at: nat)
    | CloseNode(at: nat)

  /** One call of closeResourcePair. */
  datatype CloseCall = CloseCall(owner: OwnerId, pair: Pair, at: nat)

  /** The table, and every call of closeResourcePair so far. */
  datatype State = State(resources: map<OwnerId, Pair>, calls: multiset<CloseCall>)

  function CallsFor(resources: map<OwnerId, Pair>, at: nat): multiset<CloseCall> {
    multiset(set o | o in resources :: CloseCall(o, resources[o], at))
  }

  function Next(st: State, ev: Event): State {
    match ev
    case Create(o, pair) => st.(resources := st.resources[o := pair])
    case Release(o, at) =>
      if o in st.resources then
        State(st.resources - {o}, st.calls + multiset{CloseCall(o, st.resources[o], at)})
      else st
    case CloseNode(at) => State(map[], st.calls + CallsFor(st.resources, at))
  }

  function After(evs: seq<Event>): State {
    if evs == [] then State(map[], multiset{}) else Next(After(Prefix(evs)), Last(evs))
  }

  lemma CallsForEach(resources: map<OwnerId, Pair>, at: nat, c: CloseCall)
    ensures CallsFor(resources, at)[c] == if c.owner in resources && resources[c.owner] == c.pair && c.at == at then 1 else 0
  {
    assert c in CallsFor(resources, at) <==> c in set o | o in resources :: CloseCall(o, resources[o], at);
  }

  lemma OneMoreCall(resources: map<OwnerId, Pair>, o: OwnerId, pair: Pair, at: nat)
    requires o !in resources
    ensures CallsFor(resources[o := pair], at) == CallsFor(resources, at) + multiset{CloseCall(o, pair, at)}
  {
    var more := resources[o := pair];
    forall c ensures CallsFor(more, at)[c] == (CallsFor(resources, at) + multiset{CloseCall(o, pair, at)})[c] {
      CallsForEach(more, at, c);
      CallsForEach(resources, at, c);
    }
  }

  // ---------- what the history alone says ----------

  /** Owners are new objects: none is created twice. */
  ghost predicate FreshOwners(evs: seq<Event>) {
    forall i, j | 0 <= i < j < |evs| && evs[i].Create? && evs[j].Create? :: evs[i].owner != evs[j].owner
  }

  ghost predicate CreatedBefore(evs: seq<Event>, i: nat, o: OwnerId, pair: Pair)
    requires i <= |evs|
  {
    Create(o, pair) in evs[..i]
  }

  predicate Addresses(ev: Event, o: OwnerId) {
    ev.CloseNode? || (ev.Release? && ev.owner == o)
  }

  /** Whether event `i` closes the owner, provided nobody was faster: it exists and the event is meant for it. */
  ghost predicate Reaches(evs: seq<Event>, i: nat, o: OwnerId, pair: Pair)
    requires i < |evs|
  {
    Addresses(evs[i], o) && CreatedBefore(evs, i, o, pair)
  }

  ghost predicate Reached(evs: seq<Event>, o: OwnerId, pair: Pair) {
    exists i | 0 <= i < |evs| :: Reaches(evs, i, o, pair)
  }

  /** Event `i` is the first one to reach the owner. */
  ghost predicate Starts(evs: seq<Event>, i: nat, c: CloseCall)
    requires i < |evs|
  {
    && Reaches(evs, i, c.owner, c.pair) && evs[i].at == c.at
    && forall j | 0 <= j < i :: !Reaches(evs, j, c.owner, c.pair)
  }

  ghost predicate Started(evs: seq<Event>, c: CloseCall) {
    exists i | 0 <= i < |evs| :: Starts(evs, i, c)
  }

  // ---------- the events in plain values ----------

  /** A new owner is in the table with its own connection; a release takes one owner out and starts its closing with that
      connection, at that moment, if it was there; a close of the node does so for all, and leaves none. */
  lemma EventsInValues(evs: seq<Event>, o: OwnerId, pair: Pair, at: nat)
    ensures var st := After(evs);
      && After([]) == State(map[], multiset{})
      && After(evs + [Create(o, pair)]) == State(st.resources[o := pair], st.calls)
      && After(evs + [Release(o, at)]) ==
           (if o in st.resources
            then State(st.resources - {o}, st.calls + multiset{CloseCall(o, st.resources[o], at)}) else st)
      && After(evs + [CloseNode(at)]).resources == map[]
      && forall c :: After(evs + [CloseNode(at)]).calls[c] ==
           st.calls[c] + if c.owner in st.resources && st.resources[c.owner] == c.pair && c.at == at then 1 else 0
  {
    forall ev ensures After(evs + [ev]) == Next(After(evs), ev) {
      assert Prefix(evs + [ev]) == evs;
    }
    forall c
      ensures CallsFor(After(evs).resources, at)[c] ==
        if c.owner in After(evs).resources && After(evs).resources[c.owner] == c.pair && c.at == at then 1 else 0
    {
      CallsForEach(After(evs).resources, at, c);
    }
  }

  // ---------- the table is what the history says ----------

  lemma OneMoreEvent(evs: seq<Event>)
    requires evs != []
    ensures var n, pre := |evs| - 1, Prefix(evs);
      && (forall o, p :: CreatedBefore(evs, n + 1, o, p) <==> CreatedBefore(pre, n, o, p) || evs[n] == Create(o, p))
      && (forall i, o, p | 0 <= i < n :: Reaches(evs, i, o, p) <==> Reaches(pre, i, o, p))
      && (forall o, p :: Reaches(evs, n, o, p) <==> Addresses(evs[n], o) && CreatedBefore(pre, n, o, p))
      && (FreshOwners(evs) ==> FreshOwners(pre))
  {
    var n, pre := |evs| - 1, Prefix(evs);
    assert evs[..n + 1] == pre + [evs[n]] && pre[..n] == evs[..n];
    forall i | 0 <= i < n ensures pre[..i] == evs[..i] && pre[i] == evs[i] {
    }
  }

  lemma ReachedStep(evs: seq<Event>, o: OwnerId, pair: Pair)
    requires evs != []
    ensures var pre := Prefix(evs);
      Reached(evs, o, pair) <==> Reached(pre, o, pair) || (Addresses(Last(evs), o) && CreatedBefore(pre, |pre|, o, pair))
  {
    OneMoreEvent(evs);
  }

  lemma StartedStep(evs: seq<Event>, c: CloseCall)
    requires evs != []
    ensures var pre := Prefix(evs);
      Started(evs, c) <==>
        Started(pre, c) ||
        (Addresses(Last(evs), c.owner) && Last(evs).at == c.at &&
         CreatedBefore(pre, |pre|, c.owner, c.pair) && !Reached(pre, c.owner, c.pair))
  {
    OneMoreEvent(evs);
    var n, pre := |evs| - 1, Prefix(evs);
    forall i | 0 <= i < n ensures Starts(evs, i, c) <==> Starts(pre, i, c) {
      assert Reaches(evs, i, c.owner, c.pair) <==> Reaches(pre, i, c.owner, c.pair);
    }
    if Started(pre, c) {
      var i :| 0 <= i < n && Starts(pre, i, c);
      assert Starts(evs, i, c);
    }
    if Addresses(evs[n], c.owner) && evs[n].at == c.at && CreatedBefore(pre, n, c.owner, c.pair) {
      if !Reached(pre, c.owner, c.pair) {
        assert Starts(evs, n, c);
      }
    }
  }

  /** An owner is in the table, with its own connection, exactly from its creation until the first event that reaches it. */
  lemma {:induction false} LiveUntilReached(evs: seq<Event>, o: OwnerId, pair: Pair)
    requires FreshOwners(evs)
    ensures o in After(evs).resources && After(evs).resources[o] == pair <==>
              CreatedBefore(evs, |evs|, o, pair) && !Reached(evs, o, pair)
  {
    if evs != [] {
      OneMoreEvent(evs);
      ReachedStep(evs, o, pair);
      LiveUntilReached(Prefix(evs), o, pair);
    }
  }

  lemma NotTwice(evs: seq<Event>, c: CloseCall)
    ensures Started(evs, c) ==> Reached(evs, c.owner, c.pair)
  {
  }

  /** The closing of a pair starts exactly once, at the first release of its owner or close of the node after its
      creation, and never otherwise. */
  lemma {:induction false} ClosingStartsOnce(evs: seq<Event>, c: CloseCall)
    requires FreshOwners(evs)
    ensures After(evs).calls[c] == if Started(evs, c) then 1 else 0
  {
    if evs != [] {
      var before := After(Prefix(evs));
      OneMoreEvent(evs);
      StartedStep(evs, c);
      ClosingStartsOnce(Prefix(evs), c);
      LiveUntilReached(Prefix(evs), c.owner, c.pair);
      CallsForEach(before.resources, c.at, c);
      NotTwice(Prefix(evs), c);
    }
  }

  lemma SameCreation(evs: seq<Event>, o: OwnerId, p: Pair, q: Pair)
    requires FreshOwners(evs) && Create(o, p) in evs && Create(o, q) in evs
    ensures p == q
  {
    var i :| 0 <= i < |evs| && evs[i] == Create(o, p);
    var j :| 0 <= j < |evs| && evs[j] == Create(o, q);
    assert !(i < j) && !(j < i);
  }

  /** No owner is closed twice, at whatever times and with whatever connections. */
  lemma OneClosingPerOwner(evs: seq<Event>, c: CloseCall, d: CloseCall)
    requires FreshOwners(evs) && c in After(evs).calls && d in After(evs).calls && c.owner == d.owner
    ensures c == d
  {
    ClosingStartsOnce(evs, c);
    ClosingStartsOnce(evs, d);
    var i :| 0 <= i < |evs| && Starts(evs, i, c);
    var j :| 0 <= j < |evs| && Starts(evs, j, d);
    SameCreation(evs, c.owner, c.pair, d.pair);
    assert !(i < j) && !(j < i);
  }

  // ---------- stages ----------

  /** Whether a closing has ended by time `t`. */
  predicate Over(c: CloseCall, t: nat) {
    var end := PairEnds(c.pair, c.at);
    !end.Hangs? && end.at <= t
  }

  ghost predicate Live(evs: seq<Event>, o: OwnerId) {
    o in After(evs).resources
  }

  ghost predicate Closing(evs: seq<Event>, o: OwnerId, t: nat) {
    exists c | c in After(evs).calls :: c.owner == o && !Over(c, t)
  }

  ghost predicate Closed(evs: seq<Event>, o: OwnerId, t: nat) {
    exists c | c in After(evs).calls :: c.owner == o && Over(c, t)
  }

  lemma LiveIsCreated(evs: seq<Event>, o: OwnerId, pair: Pair)
    requires FreshOwners(evs) && Create(o, pair) in evs
    ensures Live(evs, o) ==> After(evs).resources[o] == pair
  {
    if Live(evs, o) {
      LiveUntilReached(evs, o, After(evs).resources[o]);
      assert evs[..|evs|] == evs;
      SameCreation(evs, o, After(evs).resources[o], pair);
    }
  }

  /** Whatever reaches an owner, something reaches it first. */
  lemma {:induction false} FirstReach(evs: seq<Event>, o: OwnerId, pair: Pair) returns (c: CloseCall)
    requires Reached(evs, o, pair)
    ensures c.owner == o && c.pair == pair && Started(evs, c)
  {
    var pre := Prefix(evs);
    ReachedStep(evs, o, pair);
    if Reached(pre, o, pair) {
      c := FirstReach(pre, o, pair);
    } else {
      c := CloseCall(o, pair, Last(evs).at);
    }
    StartedStep(evs, c);
  }

  /** At any moment of any run each created owner is in exactly one stage, and it is live exactly until it is reached. */
  lemma ExactlyOneStage(evs: seq<Event>, o: OwnerId, pair: Pair, t: nat)
    requires FreshOwners(evs) && Create(o, pair) in evs
    ensures Live(evs, o) <==> !Reached(evs, o, pair)
    ensures Live(evs, o) || Closing(evs, o, t) || Closed(evs, o, t)
    ensures !(Live(evs, o) && Closing(evs, o, t)) && !(Live(evs, o) && Closed(evs, o, t))
    ensures !(Closing(evs, o, t) && Closed(evs, o, t))
  {
    assert evs[..|evs|] == evs;
    LiveIsCreated(evs, o, pair);
    LiveUntilReached(evs, o, pair);
    if Reached(evs, o, pair) {
      var c := FirstReach(evs, o, pair);
      ClosingStartsOnce(evs, c);
      assert c in After(evs).calls && (Over(c, t) || !Over(c, t));
    }
    forall c | c in After(evs).calls && c.owner == o ensures Reached(evs, o, pair) {
      ClosingStartsOnce(evs, c);
      var i :| 0 <= i < |evs| && Starts(evs, i, c);
      SameCreation(evs, o, c.pair, pair);
    }
    forall c, d | c in After(evs).calls && d in After(evs).calls && c.owner == d.owner == o ensures c == d {
      OneClosingPerOwner(evs, c, d);
    }
  }

  /** An owner that has been reached is closed once its budget is over, unless its lock manager hangs, and stays closed
      whatever happens later. */
  lemma ClosedInTime(evs: seq<Event>, c: CloseCall, t: nat)
    requires FreshOwners(evs) && Started(evs, c)
    ensures PairHangs(c.pair) ==> Closing(evs, c.owner, t)
    ensures !PairHangs(c.pair) && t >= c.at + PairBudget(c.pair) + LockDelay(c.pair.owner) ==> Closed(evs, c.owner, t)
    ensures t < c.at ==> !Closed(evs, c.owner, t)
  {
    ClosingStartsOnce(evs, c);
    forall d | d in After(evs).calls && d.owner == c.owner ensures d == c {
      OneClosingPerOwner(evs, c, d);
    }
  }

  lemma {:induction false} ClosedForGood(evs: seq<Event>, more: seq<Event>, o: OwnerId, t: nat, later: nat)
    requires Closed(evs, o, t) && t <= later
    ensures Closed(evs + more, o, later)
    decreases |more|
  {
    if more == [] {
      assert evs + more == evs;
    } else {
      ClosedForGood(evs, Prefix(more), o, t, later);
      assert Prefix(evs + more) == evs + Prefix(more);
    }
  }

  /** When a closing config node hears without an error that all is done, at that very moment every owner that was left
      in its table is closed. */
  lemma DoneMeansClosed(evs: seq<Event>, now: nat, pairs: seq<Pair>, done: Finish, o: OwnerId)
    requires FreshOwners(evs) && o in After(evs).resources && After(evs).resources[o] in pairs
    requires AllSettles(Ends(pairs, now), now, done) && done.Done?
    ensures Closed(evs + [CloseNode(now)], o, done.at)
  {
    var before := After(evs).resources;
    var c := CloseCall(o, before[o], now);
    WhenDoneIsCalled(pairs, now, done);
    CallsForEach(before, now, c);
    assert Prefix(evs + [CloseNode(now)]) == evs;
    assert c in After(evs + [CloseNode(now)]).calls && Over(c, done.at);
  }

  // ---------- the config node ----------

  class ResourceTable {
    var resources: map<OwnerId, Pair>
    ghost var calls: multiset<CloseCall>
    ghost var past: seq<Event>

    /** Every run of the class leaves the table as its history prescribes. */
    ghost predicate Valid()
      reads this
    {
      FreshOwners(past) && State(resources, calls) == After(past)
    }

    constructor ()
      ensures Valid() && past == []
    {
      resources, calls, past := map[], multiset{}, [];
    }

    ghost method Record(ev: Event)
      requires ev.Create? ==> forall e | e in past && e.Create? :: e.owner != ev.owner
      modifies this`past
      ensures past == old(past) + [ev] && After(past) == Next(After(old(past)), ev)
      ensures FreshOwners(old(past)) ==> FreshOwners(past)
    {
      past := past + [ev];
      assert Prefix(past) == old(past);
    }

    /** A new owner; on PostgreSQL it has no connection. A constructor that throws leaves the table alone. */
    method CreateResource(owner: OwnerId, pair: Pair, constructs: bool) returns (created: bool)
      requires Valid() && forall ev | ev in past && ev.Create? :: ev.owner != owner
      modifies this
      ensures Valid() && created == constructs
      ensures past == if constructs then old(past) + [Create(owner, pair)] else old(past)
    {
      if !constructs {
        return false;
      }
      resources := resources[owner := pair];
      Record(Create(owner, pair));
      created := true;
    }

    /** Releasing an owner starts its closing, unless somebody has started it before or it was never there. */
    method ReleaseResource(owner: OwnerId, now: nat) returns (closing: bool)
      requires Valid()
      modifies this
      ensures Valid() && past == old(past) + [Release(owner, now)]
      ensures closing <==> owner in old(resources)
      ensures owner !in resources
    {
      closing := owner in resources;
      if closing {
        var pair := resources[owner];
        resources := resources - {owner};
        calls := calls + multiset{CloseCall(owner, pair, now)};
      }
      Record(Release(owner, now));
    }

    /** Starts the closing of every pair of a snapshot. */
    method StartAll(snapshot: map<OwnerId, Pair>, now: nat)
      modifies this`calls
      ensures calls == old(calls) + CallsFor(snapshot, now)
    {
      var started: map<OwnerId, Pair> := map[];
      while snapshot.Keys - started.Keys != {}
        invariant started.Keys <= snapshot.Keys && forall o | o in started :: started[o] == snapshot[o]
        invariant calls == old(calls) + CallsFor(started, now)
        decreases snapshot.Keys - started.Keys
      {
        var owner :| owner in snapshot.Keys - started.Keys;
        OneMoreCall(started, owner, snapshot[owner], now);
        calls := calls + multiset{CloseCall(owner, snapshot[owner], now)};
        started := started[owner := snapshot[owner]];
      }
      assert started == snapshot;
    }

    /** Closing the config node starts the closing of everything that is left, and of nothing else. */
    method OnClose(now: nat)
      requires Valid()
      modifies this
      ensures Valid() && past == old(past) + [CloseNode(now)] && resources == map[]
    {
      var snapshot := resources;
      resources := map[];
      StartAll(snapshot, now);
      Record(CloseNode(now));
    }
  }
}
