/**
 The acknowledgement entries and their registry as they live on the heap: fields updated in place, a "settled"
 listener that deletes the entry from the registry map, and loops over a map that shrinks while they run.
 Every run of the heap objects is proved to be a run of AckProtocol, event by event.
 */
module Acknowledgements {
  import opened Wrappers
  import opened AckProtocol

  /** `dropsOnSettled` and `parked` are the one-shot listeners of the "settled" event: the registry's own, which is
      registered at creation and therefore runs first, and then the parked waiters in order. */
  class AcknowledgementEntry {
    const registry: AcknowledgementRegistry
    const ackId: AckId
    const runNode: NodeId
    const signal: Option<SignalId>
    const timeoutMs: real
    var settlement: Option<Settlement>
    var timerArmed: bool
    var listening: bool
    var dropsOnSettled: bool
    var parked: seq<WaiterId>
    var delivered: map<WaiterId, Settlement>

    ghost function View(): Entry
      reads this
    {
      Entry(runNode, signal, timeoutMs, settlement, timerArmed, listening, parked, delivered)
    }

    /** While unsettled the registry is listening; afterwards nobody is. */
    ghost predicate WellFormed()
      reads this
    {
      && (listening ==> signal.Some?)
      && (dropsOnSettled <==> settlement.None?)
      && (settlement.Some? ==> parked == [] && !listening)
    }

    ghost predicate Linked(r: AcknowledgementRegistry, a: AckId, registered: bool)
      reads this
    {
      registry == r && ackId == a && WellFormed() && (registered <==> settlement.None?)
    }

    constructor (registry: AcknowledgementRegistry, ackId: AckId, runNode: NodeId, signal: Option<SignalId>, timeoutMs: real)
      ensures this.registry == registry && this.ackId == ackId && !dropsOnSettled
      ensures View() == NewEntry(runNode, signal, timeoutMs)
    {
      this.registry, this.ackId, this.runNode, this.signal, this.timeoutMs := registry, ackId, runNode, signal, timeoutMs;
      settlement, dropsOnSettled, parked, delivered := None, false, [], map[];
      listening := signal.Some?;
      timerArmed := timeoutMs > 0.0;
    }

    /** The synchronous part of `wait`: an existing settlement is returned at once, otherwise the waiter is parked. */
    method Wait(w: WaiterId)
      requires WellFormed()
      modifies this`parked, this`delivered
      ensures WellFormed() && View() == WaitOn(old(View()), w)
    {
      match settlement
      case Some(s) => delivered := delivered[w := s];
      case None => parked := parked + [w];
    }

    twostate predicate Settled(s: Settlement)
      reads this, registry
    {
      && WellFormed()
      && View() == SettleEntry(old(View()), s)
      && registry.entries == if old(settlement).Some? then old(registry.entries) else old(registry.entries) - {ackId}
    }

    /** Runs the "settled" listeners in order of registration; each one is dropped as it runs. */
    method Emit(s: Settlement)
      requires dropsOnSettled
      modifies this`dropsOnSettled, this`parked, this`delivered, registry`entries
      ensures !dropsOnSettled && parked == []
      ensures delivered == Deliver(old(delivered), old(parked), s)
      ensures registry.entries == old(registry.entries) - {ackId}
    {
      dropsOnSettled := false;
      registry.entries := registry.entries - {ackId};
      while parked != []
        invariant !dropsOnSettled && registry.entries == old(registry.entries) - {ackId}
        invariant Deliver(delivered, parked, s) == Deliver(old(delivered), old(parked), s)
        decreases |parked|
      {
        delivered := delivered[parked[0] := s];
        parked := parked[1..];
      }
    }

    method Settle(s: Settlement)
      requires WellFormed()
      modifies this, registry`entries
      ensures Settled(s)
    {
      if settlement.Some? {
        return;
      }
      settlement := Some(s);
      timerArmed := false;
      if signal.Some? {
        listening := false;
      }
      Emit(s);
    }

    method Complete(value: string)
      requires WellFormed()
      modifies this, registry`entries
      ensures Settled(Resolve(value))
    {
      Settle(Resolve(value));
    }

    method Fail(error: Failure)
      requires WellFormed()
      modifies this, registry`entries
      ensures Settled(Reject(error))
    {
      Settle(Reject(error));
    }

    /** The callback of the acknowledgement timer. */
    method TimerFires()
      requires WellFormed() && timerArmed
      modifies this, registry`entries
      ensures Settled(Reject(TimedOut(timeoutMs)))
    {
      Fail(TimedOut(timeoutMs));
    }

    /** The listener this entry attaches to its abort signal. */
    method OnAbort(reason: string)
      requires WellFormed() && listening
      modifies this, registry`entries
      ensures Settled(Reject(Aborted(reason)))
    {
      Fail(Aborted(reason));
    }
  }

  class AcknowledgementRegistry {
    var entries: map<AckId, AcknowledgementEntry>
    ghost var all: map<AckId, AcknowledgementEntry>  // every entry ever created

    ghost predicate Valid()
      reads this, all.Values
    {
      && (forall a | a in all :: all[a].Linked(this, a, a in entries))
      && (forall a | a in entries :: a in all && entries[a] == all[a])
    }

    /** The protocol state the heap stands for, but for the signals that have fired. */
    ghost function Model(): State
      reads this, all.Values
    {
      State(map a | a in all :: all[a].View(), entries.Keys, {})
    }

    constructor ()
      ensures Valid() && all == map[] && Model() == INIT
    {
      entries, all := map[], map[];
    }

    /** The id is fresh: the package builds it from the time and a random suffix. */
    method CreateEntry(ackId: AckId, runNode: NodeId, signal: Option<SignalId>, timeoutMs: real)
      returns (entry: AcknowledgementEntry)
      requires Valid() && ackId !in all
      modifies this
      ensures Valid()
      ensures fresh(entry) && all == old(all)[ackId := entry] && entries == old(entries)[ackId := entry]
      ensures entry.View() == NewEntry(runNode, signal, timeoutMs)
    {
      entry := new AcknowledgementEntry(this, ackId, runNode, signal, timeoutMs);
      entries := entries[ackId := entry];
      entry.dropsOnSettled := true;
      all := all[ackId := entry];
    }

    method Get(ackId: AckId) returns (entry: Option<AcknowledgementEntry>)
      requires Valid()
      ensures entry.Some? <==> ackId in all && all[ackId].settlement.None?
      ensures entry.Some? ==> entry.value == all[ackId]
    {
      entry := if ackId in entries then Some(entries[ackId]) else None;
    }

    /** An entry has been added: seen from the registry, this is one step of the protocol. */
    twostate lemma CreatedIsOneStep(new entry: AcknowledgementEntry)
      requires old(Valid()) && entry.ackId !in old(all) && Valid()
      requires all == old(all)[entry.ackId := entry] && entries == old(entries)[entry.ackId := entry]
      requires entry.View() == NewEntry(entry.runNode, entry.signal, entry.timeoutMs)
      requires forall b | b in old(all) :: unchanged(old(all[b]))
      ensures Model() == Next(old(Model()), CreationOf(entry.ackId, entry.View()))
    {
      assert Model().entries == Next(old(Model()), CreationOf(entry.ackId, entry.View())).entries;
    }

    /** A waiter has arrived: seen from the registry, this is one step of the protocol. */
    twostate lemma WaitedIsOneStep(new a: AckId, new w: WaiterId)
      requires old(Valid()) && a in old(all) && all == old(all) && entries == old(entries)
      requires all[a].WellFormed() && all[a].View() == WaitOn(old(all[a].View()), w)
      requires forall b | b in all && b != a :: unchanged(all[b])
      requires Enabled(old(Model()), Wait(a, w))
      ensures Valid() && Model() == Next(old(Model()), Wait(a, w))
    {
      assert Model().entries == Next(old(Model()), Wait(a, w)).entries;
    }

    /** One entry has been settled: seen from the registry, this is one step of the protocol. */
    twostate lemma SettledIsOneStep(new a: AckId, new s: Settlement)
      requires old(Valid()) && a in old(all) && all == old(all) && all[a].Settled(s)
      requires forall b | b in all && b != a :: unchanged(all[b])
      ensures Valid() && Model() == SettleOne(old(Model()), a, s)
    {
      assert Model().entries == SettleOne(old(Model()), a, s).entries;
    }

    method FailEntry(a: AckId, error: Failure)
      requires Valid() && a in entries
      modifies entries[a], this`entries
      ensures Valid() && all == old(all)
      ensures Model() == SettleOne(old(Model()), a, Reject(error))
    {
      entries[a].Fail(error);
      SettledIsOneStep(a, Reject(error));
    }

    method AbortEntry(a: AckId, reason: string)
      requires Valid() && a in entries && entries[a].listening
      modifies entries[a], this`entries
      ensures Valid() && all == old(all)
      ensures Model() == SettleOne(old(Model()), a, Reject(Aborted(reason)))
    {
      entries[a].OnAbort(reason);
      SettledIsOneStep(a, Reject(Aborted(reason)));
    }

    /** Walks a snapshot of the map, which shrinks as the entries settle: the whole walk is one step of the protocol. */
    method RejectByRunNode(runNode: NodeId, error: Failure)
      requires Valid()
      modifies this`entries, entries.Values
      ensures Valid() && all == old(all)
      ensures Model() == SettleAll(old(Model()), RegisteredBy(old(Model()), runNode), Reject(error))
    {
      var snapshot := entries;
      ghost var before, targets := Model(), RegisteredBy(Model(), runNode);
      var done: set<AckId> := {};
      assert targets * done == {};
      SettlingNobody(before, Reject(error));
      while snapshot.Keys - done != {}
        invariant Valid() && all == old(all) && done <= snapshot.Keys
        invariant Model() == SettleAll(before, targets * done, Reject(error))
        decreases snapshot.Keys - done
      {
        var a :| a in snapshot.Keys - done;
        SettlingTurn(before, targets, done, a, Reject(error));
        if snapshot[a].runNode == runNode {
          assert a in Model().registry;
          FailEntry(a, error);
        }
        done := done + {a};
      }
      assert targets * done == targets;
    }

    /** What a signal does when it fires for the first time: it calls the listeners attached to it, all of which belong
        to registered entries. */
    method DispatchAbort(signal: SignalId, reason: string)
      requires Valid()
      modifies this`entries, entries.Values
      ensures Valid() && all == old(all)
      ensures Model() == SettleAll(old(Model()), Listeners(old(Model()), signal), Reject(Aborted(reason)))
    {
      var snapshot := entries;
      ghost var before, targets := Model(), Listeners(Model(), signal);
      var done: set<AckId> := {};
      assert targets * done == {};
      SettlingNobody(before, Reject(Aborted(reason)));
      while snapshot.Keys - done != {}
        invariant Valid() && all == old(all) && done <= snapshot.Keys
        invariant Model() == SettleAll(before, targets * done, Reject(Aborted(reason)))
        decreases snapshot.Keys - done
      {
        var a :| a in snapshot.Keys - done;
        SettlingTurn(before, targets, done, a, Reject(Aborted(reason)));
        assert Model().entries[a] == before.entries[a];
        if snapshot[a].listening && snapshot[a].signal == Some(signal) {
          assert a in Model().registry;
          AbortEntry(a, reason);
        }
        done := done + {a};
      }
      assert targets * done == targets;
    }
  }

  /** The package as the event loop runs it: the registry shared by all nodes, and the signals that have fired. Each
      method is one uninterrupted block of code, and every run of them is a run of the protocol. */
  class Runtime {
    const acknowledgements: AcknowledgementRegistry
    var fired: set<SignalId>
    ghost var past: seq<Event>

    ghost function Now(): State
      reads this, acknowledgements, acknowledgements.all.Values
    {
      acknowledgements.Model().(aborted := fired)
    }

    ghost predicate Valid()
      reads this, acknowledgements, acknowledgements.all.Values
    {
      acknowledgements.Valid() && ValidFrom(INIT, past) && Now() == RunFrom(INIT, past)
    }

    ghost predicate Holds(entry: AcknowledgementEntry)
      reads acknowledgements
    {
      entry.ackId in acknowledgements.all && acknowledgements.all[entry.ackId] == entry
    }

    constructor ()
      ensures Valid() && past == []
    {
      acknowledgements := new AcknowledgementRegistry();
      fired, past := {}, [];
    }

    /** Adds an event to the history, once the heap has taken its step. */
    ghost method Record(ev: Event, before: State)
      requires ValidFrom(INIT, past) && before.(aborted := fired) == RunFrom(INIT, past)
      requires !ev.Abort? && Enabled(before, ev) && acknowledgements.Model() == Next(before, ev)
      modifies this`past
      ensures past == old(past) + [ev] && ValidFrom(INIT, past) && Now() == RunFrom(INIT, past)
    {
      FiredMattersToAborts(before, fired, ev);
      RunFromOneMore(INIT, past, ev);
      past := past + [ev];
    }

    ghost method RecordAbort(signal: SignalId, reason: string, before: State, was: set<SignalId>)
      requires ValidFrom(INIT, past) && before.aborted == {} && before.(aborted := was) == RunFrom(INIT, past)
      requires fired == was + {signal}
      requires acknowledgements.Model() ==
        if signal in was then before else SettleAll(before, Listeners(before, signal), Reject(Aborted(reason)))
      modifies this`past
      ensures past == old(past) + [Abort(signal, reason)] && ValidFrom(INIT, past) && Now() == RunFrom(INIT, past)
    {
      AbortOf(before, was, signal, reason);
      RunFromOneMore(INIT, past, Abort(signal, reason));
      past := past + [Abort(signal, reason)];
    }

    method OnCreate(ackId: AckId, runNode: NodeId, signal: Option<SignalId>, timeoutMs: real)
      returns (entry: AcknowledgementEntry)
      requires Valid() && ackId !in acknowledgements.all
      modifies this, acknowledgements
      ensures Valid() && past == old(past) + [Create(ackId, runNode, signal, timeoutMs)]
      ensures fresh(entry) && entry.ackId == ackId && Holds(entry)
    {
      ghost var before := acknowledgements.Model();
      entry := acknowledgements.CreateEntry(ackId, runNode, signal, timeoutMs);
      assert acknowledgements.all[ackId].Linked(acknowledgements, ackId, true);
      acknowledgements.CreatedIsOneStep(entry);
      Record(Create(ackId, runNode, signal, timeoutMs), before);
    }

    method OnWait(entry: AcknowledgementEntry, w: WaiterId)
      requires Valid() && Holds(entry) && w !in entry.parked && w !in entry.delivered
      modifies this, entry
      ensures Valid() && past == old(past) + [Wait(entry.ackId, w)]
    {
      ghost var before := acknowledgements.Model();
      entry.Wait(w);
      acknowledgements.WaitedIsOneStep(entry.ackId, w);
      Record(Wait(entry.ackId, w), before);
    }

    method OnComplete(entry: AcknowledgementEntry, value: string)
      requires Valid() && Holds(entry)
      modifies this, entry, acknowledgements
      ensures Valid() && past == old(past) + [Complete(entry.ackId, value)]
    {
      ghost var before := acknowledgements.Model();
      entry.Complete(value);
      acknowledgements.SettledIsOneStep(entry.ackId, Resolve(value));
      Record(Complete(entry.ackId, value), before);
    }

    method OnFail(entry: AcknowledgementEntry, error: Failure)
      requires Valid() && Holds(entry)
      modifies this, entry, acknowledgements
      ensures Valid() && past == old(past) + [Fail(entry.ackId, error)]
    {
      ghost var before := acknowledgements.Model();
      entry.Fail(error);
      acknowledgements.SettledIsOneStep(entry.ackId, Reject(error));
      Record(Fail(entry.ackId, error), before);
    }

    method OnTimer(entry: AcknowledgementEntry)
      requires Valid() && Holds(entry) && entry.timerArmed
      modifies this, entry, acknowledgements
      ensures Valid() && past == old(past) + [TimerFires(entry.ackId)]
    {
      ghost var before := acknowledgements.Model();
      entry.TimerFires();
      acknowledgements.SettledIsOneStep(entry.ackId, Reject(TimedOut(entry.timeoutMs)));
      Record(TimerFires(entry.ackId), before);
    }

    /** Aborting a controller: a signal fires once. */
    method OnAbort(signal: SignalId, reason: string)
      requires Valid()
      modifies this, acknowledgements, acknowledgements.entries.Values
      ensures Valid() && past == old(past) + [Abort(signal, reason)]
    {
      ghost var before := acknowledgements.Model();
      ghost var was := fired;
      if signal !in fired {
        acknowledgements.DispatchAbort(signal, reason);
        fired := fired + {signal};
      }
      assert fired == was + {signal};
      RecordAbort(signal, reason, before, was);
    }

    method OnCloseRunNode(runNode: NodeId, error: Failure)
      requires Valid()
      modifies this, acknowledgements, acknowledgements.entries.Values
      ensures Valid() && past == old(past) + [CloseRunNode(runNode, error)]
    {
      ghost var before := acknowledgements.Model();
      acknowledgements.RejectByRunNode(runNode, error);
      Record(CloseRunNode(runNode, error), before);
    }

    /** What the protocol guarantees holds of the objects: after any run the settlement of an entry is the first offer
        of the history, and every waiter that ever came holds it or, while there is none, is parked. */
    lemma HeapKeepsTheProtocol(a: AckId, s: Settlement, w: WaiterId)
      requires Valid() && a in acknowledgements.all
      ensures var entry := acknowledgements.all[a];
        && (entry.settlement == Some(s) <==> exists i | 0 <= i < |past| :: FirstOffer(past, i, a, s))
        && (a in acknowledgements.entries <==> entry.settlement.None?)
        && (Wait(a, w) in past <==> w in entry.delivered || w in entry.parked)
        && (w in entry.delivered ==> entry.settlement == Some(entry.delivered[w]))
        && (w in entry.parked ==> entry.settlement.None?)
    {
      assert acknowledgements.all[a].View() == Now().entries[a];
      FirstOfferWins(past, a, s);
      WaitersAreKept(past, a, w);
      WaitersGetTheSettlement(past, a, w);
    }
  }
}
