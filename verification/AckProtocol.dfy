/**
 The manual-acknowledgement protocol as a state machine on values.

 JavaScript runs the code between two awaits without interruption, so each such block is one event. An entry
 offers one settlement slot; completions, failures, its timer, its abort signal and the closing of its run node
 compete for it, while waiters may start before or after the slot is filled.
 */
module AckProtocol {
  import opened Histories
  import opened Wrappers

  type AckId = nat
  type NodeId = nat
  type SignalId = nat
  type WaiterId = nat

  /** What an entry can be failed with. */
  datatype Failure =
    | TimedOut(ms: real)
    | Aborted(reason: string)
    | RunNodeClosed
    | JobError(text: string)
    | Unrecoverable(text: string)
    | RateLimited
    | MovedToWait
    | MovedToDelayed

  datatype Settlement = Resolve(value: string) | Reject(error: Failure)

  /** One acknowledgement. `waiting` are the waiters parked on the "settled" event, `delivered` the waiters whose
      promise has been settled, with what they were given. */
  datatype Entry = Entry(
    runNode: NodeId,
    signal: Option<SignalId>,
    timeoutMs: real,
    settlement: Option<Settlement>,
    timerArmed: bool,
    listening: bool,
    waiting: seq<WaiterId>,
    delivered: map<WaiterId, Settlement>)

  /** `entries` holds every acknowledgement ever created, `registry` the ids still in the registry map, `aborted`
      the signals that have fired. */
  datatype State = State(entries: map<AckId, Entry>, registry: set<AckId>, aborted: set<SignalId>)

  const INIT := State(map[], {}, {})

  datatype Event =
    | Create(ack: AckId, runNode: NodeId, signal: Option<SignalId>, timeoutMs: real)
    | Complete(ack: AckId, value: string)
    | Fail(ack: AckId, error: Failure)
    | TimerFires(ack: AckId)
    | Abort(source: SignalId, reason: string)
    | CloseRunNode(runNode: NodeId, error: Failure)
    | Wait(ack: AckId, waiter: WaiterId)

  /** A timer can fire only while it is armed, a handle exists only for a created entry, ids are fresh. */
  predicate Enabled(st: State, ev: Event) {
    match ev
    case Create(ack, _, _, _) => ack !in st.entries
    case Complete(ack, _) => ack in st.entries
    case Fail(ack, _) => ack in st.entries
    case TimerFires(ack) => ack in st.entries && st.entries[ack].timerArmed
    case Abort(_, _) => true
    case CloseRunNode(_, _) => true
    case Wait(ack, w) => ack in st.entries && w !in st.entries[ack].waiting && w !in st.entries[ack].delivered
  }

  /** A new entry: its abort listener is attached whenever there is a signal, even one that has already fired. */
  function NewEntry(runNode: NodeId, signal: Option<SignalId>, timeoutMs: real): Entry {
    Entry(runNode, signal, timeoutMs, None, timeoutMs > 0.0, signal.Some?, [], map[])
  }

  /** Hands the settlement to the parked waiters, in the order they were parked. */
  function Deliver(delivered: map<WaiterId, Settlement>, waiting: seq<WaiterId>, s: Settlement): map<WaiterId, Settlement>
    decreases |waiting|
  {
    if waiting == [] then delivered else Deliver(delivered[waiting[0] := s], waiting[1..], s)
  }

  lemma {:induction false} DeliverReaches(delivered: map<WaiterId, Settlement>, waiting: seq<WaiterId>, s: Settlement)
    ensures forall w :: w in Deliver(delivered, waiting, s) <==> w in delivered || w in waiting
    ensures forall w | w in Deliver(delivered, waiting, s) ::
      Deliver(delivered, waiting, s)[w] == if w in waiting then s else delivered[w]
    decreases |waiting|
  {
    if waiting != [] {
      DeliverReaches(delivered[waiting[0] := s], waiting[1..], s);
      assert waiting == [waiting[0]] + waiting[1..];
    }
  }

  /** Settling: a second settlement is ignored, the first one stops the timer, detaches the listener and wakes
      every parked waiter. */
  function SettleEntry(e: Entry, s: Settlement): Entry {
    if e.settlement.Some? then e
    else e.(settlement := Some(s), timerArmed := false, listening := false, waiting := [],
            delivered := Deliver(e.delivered, e.waiting, s))
  }

  function SettleOne(st: State, a: AckId, s: Settlement): State
    requires a in st.entries
  {
    st.(entries := st.entries[a := SettleEntry(st.entries[a], s)], registry := st.registry - {a})
  }

  function SettleAll(st: State, targets: set<AckId>, s: Settlement): State {
    st.(entries := map a | a in st.entries :: if a in targets then SettleEntry(st.entries[a], s) else st.entries[a],
        registry := st.registry - targets)
  }

  /** Settling one more entry with the same settlement is settling them all together. */
  lemma SettleOneMore(st: State, targets: set<AckId>, a: AckId, s: Settlement)
    requires a in st.entries
    ensures SettleOne(SettleAll(st, targets, s), a, s) == SettleAll(st, targets + {a}, s)
  {
    assert SettleOne(SettleAll(st, targets, s), a, s).entries == SettleAll(st, targets + {a}, s).entries;
  }

  lemma SettlingNobody(st: State, s: Settlement)
    ensures SettleAll(st, {}, s) == st
  {
    assert SettleAll(st, {}, s).entries == st.entries;
  }

  /** One turn of a walk that settles the targets among the entries it meets. */
  lemma SettlingTurn(st: State, targets: set<AckId>, done: set<AckId>, a: AckId, s: Settlement)
    requires a in st.entries
    ensures SettleAll(st, targets * (done + {a}), s) ==
              if a in targets then SettleOne(SettleAll(st, targets * done, s), a, s) else SettleAll(st, targets * done, s)
  {
    SettleOneMore(st, targets * done, a, s);
    assert targets * (done + {a}) == targets * done + if a in targets then {a} else {};
  }

  /** Whom an abort reaches: the listeners of the signal, and only the first time it fires. */
  function Listeners(st: State, signal: SignalId): set<AckId> {
    set a | a in st.entries && st.entries[a].listening && st.entries[a].signal == Some(signal) && signal !in st.aborted
  }

  /** Whom closing a run node reaches: its entries in the registry map. */
  function RegisteredBy(st: State, runNode: NodeId): set<AckId> {
    set a | a in st.registry && a in st.entries && st.entries[a].runNode == runNode
  }

  function WaitOn(e: Entry, w: WaiterId): Entry {
    match e.settlement
    case Some(s) => e.(delivered := e.delivered[w := s])
    case None => e.(waiting := e.waiting + [w])
  }

  function Next(st: State, ev: Event): State
    requires Enabled(st, ev)
  {
    match ev
    case Create(ack, runNode, signal, ms) =>
      st.(entries := st.entries[ack := NewEntry(runNode, signal, ms)], registry := st.registry + {ack})
    case Complete(ack, value) => SettleOne(st, ack, Resolve(value))
    case Fail(ack, error) => SettleOne(st, ack, Reject(error))
    case TimerFires(ack) => SettleOne(st, ack, Reject(TimedOut(st.entries[ack].timeoutMs)))
    case Abort(signal, reason) =>
      SettleAll(st, Listeners(st, signal), Reject(Aborted(reason))).(aborted := st.aborted + {signal})
    case CloseRunNode(runNode, error) => SettleAll(st, RegisteredBy(st, runNode), Reject(error))
    case Wait(ack, w) => st.(entries := st.entries[ack := WaitOn(st.entries[ack], w)])
  }

  /** Which signals have fired matters to aborts alone. */
  lemma FiredMattersToAborts(st: State, fired: set<SignalId>, ev: Event)
    requires Enabled(st, ev) && !ev.Abort?
    ensures Enabled(st.(aborted := fired), ev) && Next(st.(aborted := fired), ev) == Next(st, ev).(aborted := fired)
  {
  }

  lemma AbortOf(st: State, fired: set<SignalId>, signal: SignalId, reason: string)
    requires st.aborted == {}
    ensures Next(st.(aborted := fired), Abort(signal, reason)) ==
              if signal in fired then st.(aborted := fired)
              else SettleAll(st, Listeners(st, signal), Reject(Aborted(reason))).(aborted := fired + {signal})
  {
    var now := st.(aborted := fired);
    if signal in fired {
      assert Listeners(now, signal) == {};
      SettlingNobody(now, Reject(Aborted(reason)));
    } else {
      assert Listeners(now, signal) == Listeners(st, signal);
    }
  }

  // ---------- runs ----------

  predicate ValidFrom(st: State, evs: seq<Event>)
    decreases |evs|, 0
  {
    evs == [] ||
    (ValidFrom(st, Prefix(evs)) && Enabled(RunFrom(st, Prefix(evs)), Last(evs)))
  }

  function RunFrom(st: State, evs: seq<Event>): State
    requires ValidFrom(st, evs)
    decreases |evs|, 1
  {
    if evs == [] then st else Next(RunFrom(st, Prefix(evs)), Last(evs))
  }

  lemma RunFromOneMore(st: State, evs: seq<Event>, ev: Event)
    requires ValidFrom(st, evs) && Enabled(RunFrom(st, evs), ev)
    ensures ValidFrom(st, evs + [ev]) && RunFrom(st, evs + [ev]) == Next(RunFrom(st, evs), ev)
  {
    assert Prefix(evs + [ev]) == evs;
  }

  // ---------- the invariant of every reachable state ----------

  ghost predicate EntryInv(e: Entry, registered: bool) {
    && (registered <==> e.settlement.None?)
    && (e.timerArmed <==> e.settlement.None? && e.timeoutMs > 0.0)
    && (e.listening <==> e.settlement.None? && e.signal.Some?)
    && (e.settlement.None? ==> e.delivered == map[])
    && (e.settlement.Some? ==> e.waiting == [] && forall w | w in e.delivered :: e.delivered[w] == e.settlement.value)
  }

  ghost predicate Inv(st: State) {
    && st.registry <= st.entries.Keys
    && forall a | a in st.entries :: EntryInv(st.entries[a], a in st.registry)
  }

  lemma NextKeepsInv(st: State, ev: Event)
    requires Inv(st) && Enabled(st, ev)
    ensures Inv(Next(st, ev))
  {
    var st' := Next(st, ev);
    forall a | a in st'.entries ensures EntryInv(st'.entries[a], a in st'.registry) {
      if a in st.entries {
        var e := st.entries[a];
        assert EntryInv(e, a in st.registry);
        forall s { DeliverReaches(e.delivered, e.waiting, s); }
      }
    }
  }

  lemma {:induction false} RunKeepsInv(st: State, evs: seq<Event>)
    requires Inv(st) && ValidFrom(st, evs)
    ensures Inv(RunFrom(st, evs))
  {
    if evs != [] {
      RunKeepsInv(st, Prefix(evs));
      NextKeepsInv(RunFrom(st, Prefix(evs)), Last(evs));
    }
  }

  // ---------- the steps in plain values ----------

  /** An unsettled entry takes a settlement: its timer and its listener go, and everybody parked is answered with it. A
      settled one ignores it. */
  ghost predicate Takes(before: Entry, after: Entry, s: Settlement) {
    if before.settlement.Some? then after == before
    else
      && after.settlement == Some(s) && !after.timerArmed && !after.listening && after.waiting == []
      && after.runNode == before.runNode && after.signal == before.signal && after.timeoutMs == before.timeoutMs
      && (forall w :: w in after.delivered <==> w in before.delivered || w in before.waiting)
      && forall w | w in after.delivered :: after.delivered[w] == if w in before.waiting then s else before.delivered[w]
  }

  /** Exactly the entries in `targets` take a settlement and leave the registry. */
  ghost predicate TheyTake(before: State, after: State, targets: set<AckId>, s: Settlement) {
    && after.entries.Keys == before.entries.Keys
    && (forall a :: a in after.registry <==> a in before.registry && a !in targets)
    && forall a | a in before.entries ::
      if a in targets then Takes(before.entries[a], after.entries[a], s) else after.entries[a] == before.entries[a]
  }

  ghost predicate StepLaw(before: State, ev: Event, after: State) {
    match ev
    case Create(a, n, signal, ms) =>
      after.entries == before.entries[a := Entry(n, signal, ms, None, ms > 0.0, signal.Some?, [], map[])] &&
      after.registry == before.registry + {a} && after.aborted == before.aborted
    case Complete(a, value) => TheyTake(before, after, {a}, Resolve(value)) && after.aborted == before.aborted
    case Fail(a, error) => TheyTake(before, after, {a}, Reject(error)) && after.aborted == before.aborted
    case TimerFires(a) =>
      a in before.entries && after.aborted == before.aborted &&
      TheyTake(before, after, {a}, Reject(TimedOut(before.entries[a].timeoutMs)))
    case Abort(x, reason) =>
      after.aborted == before.aborted + {x} &&
      var heard :=
        set a | a in before.registry && a in before.entries && x !in before.aborted && before.entries[a].signal == Some(x);
      TheyTake(before, after, heard, Reject(Aborted(reason)))
    case CloseRunNode(n, error) =>
      after.aborted == before.aborted &&
      var own := set a | a in before.registry && a in before.entries && before.entries[a].runNode == n;
      TheyTake(before, after, own, Reject(error))
    case Wait(a, w) =>
      a in before.entries && after.registry == before.registry && after.aborted == before.aborted &&
      after.entries == before.entries[a :=
        match before.entries[a].settlement
        case Some(s) => before.entries[a].(delivered := before.entries[a].delivered[w := s])
        case None => before.entries[a].(waiting := before.entries[a].waiting + [w])]
  }

  lemma SettlingTakes(e: Entry, s: Settlement)
    ensures Takes(e, SettleEntry(e, s), s)
  {
    DeliverReaches(e.delivered, e.waiting, s);
  }

  /** What every event does, in plain values. */
  lemma StepsInValues(st: State, ev: Event)
    requires Inv(st) && Enabled(st, ev)
    ensures StepLaw(st, ev, Next(st, ev))
  {
    forall a, s | a in st.entries ensures Takes(st.entries[a], SettleEntry(st.entries[a], s), s) {
      SettlingTakes(st.entries[a], s);
    }
    forall a | a in st.entries ensures EntryInv(st.entries[a], a in st.registry) {
    }
  }

  /** Who an entry belongs to. */
  function Belongs(e: Entry): (NodeId, Option<SignalId>, real) {
    (e.runNode, e.signal, e.timeoutMs)
  }

  lemma NextIsFinal(st: State, ev: Event, a: AckId)
    requires Inv(st) && Enabled(st, ev) && a in st.entries
    ensures a in Next(st, ev).entries && Belongs(Next(st, ev).entries[a]) == Belongs(st.entries[a])
    ensures st.entries[a].settlement.Some? ==> Next(st, ev).entries[a].settlement == st.entries[a].settlement
    ensures a !in st.registry ==> a !in Next(st, ev).registry
  {
  }

  /** Once filled, a settlement never changes, and no entry is ever forgotten, reassigned or registered again. */
  lemma {:induction false} SettlementIsFinal(st: State, evs: seq<Event>, a: AckId)
    requires Inv(st) && ValidFrom(st, evs) && a in st.entries
    ensures a in RunFrom(st, evs).entries && Belongs(RunFrom(st, evs).entries[a]) == Belongs(st.entries[a])
    ensures st.entries[a].settlement.Some? ==> RunFrom(st, evs).entries[a].settlement == st.entries[a].settlement
    ensures a !in st.registry ==> a !in RunFrom(st, evs).registry
  {
    if evs != [] {
      SettlementIsFinal(st, Prefix(evs), a);
      RunKeepsInv(st, Prefix(evs));
      NextIsFinal(RunFrom(st, Prefix(evs)), Last(evs), a);
    }
  }

  // ---------- what the history alone says ----------

  ghost predicate CreatedBefore(evs: seq<Event>, i: nat, c: Event)
    requires i <= |evs|
  {
    c.Create? && exists j | 0 <= j < i :: evs[j] == c
  }

  ghost predicate AbortedBefore(evs: seq<Event>, i: nat, signal: SignalId)
    requires i <= |evs|
  {
    exists j | 0 <= j < i :: evs[j].Abort? && evs[j].source == signal
  }

  /** What an event offers to the acknowledgement created by `c`, given whether the event's signal fired earlier. */
  function OfferTo(c: Event, ev: Event, fired: bool): Option<Settlement>
    requires c.Create?
  {
    match ev
    case Complete(a, value) => if a == c.ack then Some(Resolve(value)) else None
    case Fail(a, error) => if a == c.ack then Some(Reject(error)) else None
    case TimerFires(a) => if a == c.ack then Some(Reject(TimedOut(c.timeoutMs))) else None
    case Abort(source, reason) => if c.signal == Some(source) && !fired then Some(Reject(Aborted(reason))) else None
    case CloseRunNode(runNode, error) => if runNode == c.runNode then Some(Reject(error)) else None
    case _ => None
  }

  /** Whether event `i` tries to settle `a` with `s`. Only the events are consulted: who the entry belongs to comes
      from its creation, and a signal counts the first time it fires. */
  ghost predicate Offers(evs: seq<Event>, i: nat, a: AckId, s: Settlement)
    requires i < |evs|
  {
    exists c | CreatedBefore(evs, i, c) ::
      c.ack == a && OfferTo(c, evs[i], evs[i].Abort? && AbortedBefore(evs, i, evs[i].source)) == Some(s)
  }

  ghost predicate FirstOffer(evs: seq<Event>, i: nat, a: AckId, s: Settlement)
    requires i < |evs|
  {
    Offers(evs, i, a, s) && forall j, t | 0 <= j < i :: !Offers(evs, j, a, t)
  }

  // ---------- the state is what the history says ----------

  function CreationOf(a: AckId, e: Entry): Event {
    Create(a, e.runNode, e.signal, e.timeoutMs)
  }

  lemma CreatedByPrefix(evs: seq<Event>, i: nat, c: Event)
    requires evs != [] && i < |evs|
    ensures CreatedBefore(evs, i, c) <==> CreatedBefore(Prefix(evs), i, c)
  {
    assert forall j | 0 <= j < i :: evs[j] == Prefix(evs)[j];
  }

  lemma AbortedByPrefix(evs: seq<Event>, i: nat, signal: SignalId)
    requires evs != [] && i < |evs|
    ensures AbortedBefore(evs, i, signal) <==> AbortedBefore(Prefix(evs), i, signal)
  {
    assert forall j | 0 <= j < i :: evs[j] == Prefix(evs)[j];
  }

  lemma CreationStep(st: State, ev: Event, c: Event)
    requires Enabled(st, ev) && c.Create?
    ensures c.ack in Next(st, ev).entries && c == CreationOf(c.ack, Next(st, ev).entries[c.ack]) <==>
              (c.ack in st.entries && c == CreationOf(c.ack, st.entries[c.ack])) || ev == c
  {
  }

  lemma {:induction false} CreationIsRecorded(evs: seq<Event>, c: Event)
    requires ValidFrom(INIT, evs) && c.Create?
    ensures var st := RunFrom(INIT, evs);
      CreatedBefore(evs, |evs|, c) <==> c.ack in st.entries && c == CreationOf(c.ack, st.entries[c.ack])
  {
    if evs != [] {
      CreationIsRecorded(Prefix(evs), c);
      CreatedByPrefix(evs, |evs| - 1, c);
      CreationStep(RunFrom(INIT, Prefix(evs)), Last(evs), c);
      assert CreatedBefore(evs, |evs|, c) <==> CreatedBefore(evs, |evs| - 1, c) || Last(evs) == c;
    }
  }

  lemma {:induction false} AbortIsRecorded(evs: seq<Event>, signal: SignalId)
    requires ValidFrom(INIT, evs)
    ensures AbortedBefore(evs, |evs|, signal) <==> signal in RunFrom(INIT, evs).aborted
  {
    if evs != [] {
      AbortIsRecorded(Prefix(evs), signal);
      var n := |evs| - 1;
      assert forall j | 0 <= j < n :: evs[j] == Prefix(evs)[j];
      if signal in RunFrom(INIT, evs).aborted && signal !in RunFrom(INIT, Prefix(evs)).aborted {
        assert evs[n].Abort? && evs[n].source == signal;
      }
    }
  }

  lemma OffersOfPrefix(evs: seq<Event>, i: nat, a: AckId, s: Settlement)
    requires evs != [] && i < |evs| - 1
    ensures Offers(evs, i, a, s) <==> Offers(Prefix(evs), i, a, s)
  {
    assert evs[i] == Prefix(evs)[i];
    forall c ensures CreatedBefore(evs, i, c) <==> CreatedBefore(Prefix(evs), i, c) {
      CreatedByPrefix(evs, i, c);
    }
    if evs[i].Abort? {
      AbortedByPrefix(evs, i, evs[i].source);
    }
  }

  /** Before a given event, only the entry's own creation counts. */
  lemma OfferToExisting(evs: seq<Event>, a: AckId, s: Settlement)
    requires evs != [] && ValidFrom(INIT, evs) && a in RunFrom(INIT, Prefix(evs)).entries
    ensures var n, pre := |evs| - 1, RunFrom(INIT, Prefix(evs));
      Offers(evs, n, a, s) <==>
      OfferTo(CreationOf(a, pre.entries[a]), evs[n], evs[n].Abort? && evs[n].source in pre.aborted) == Some(s)
  {
    var n, pre := |evs| - 1, RunFrom(INIT, Prefix(evs));
    forall c: Event | c.Create? && c.ack == a
      ensures CreatedBefore(evs, n, c) <==> c == CreationOf(a, pre.entries[a])
    {
      CreatedByPrefix(evs, n, c);
      CreationIsRecorded(Prefix(evs), c);
    }
    if evs[n].Abort? {
      AbortedByPrefix(evs, n, evs[n].source);
      AbortIsRecorded(Prefix(evs), evs[n].source);
    }
    assert CreatedBefore(evs, n, CreationOf(a, pre.entries[a]));
  }

  /** An unsettled entry takes exactly what the event offers to it. */
  lemma UnsettledTakesTheOffer(st: State, ev: Event, a: AckId, s: Settlement)
    requires Inv(st) && Enabled(st, ev) && a in st.entries && st.entries[a].settlement.None?
    ensures OfferTo(CreationOf(a, st.entries[a]), ev, ev.Abort? && ev.source in st.aborted) == Some(s) <==>
              Next(st, ev).entries[a].settlement == Some(s)
  {
    assert EntryInv(st.entries[a], a in st.registry);
  }

  lemma NothingIsOfferedBeforeCreation(evs: seq<Event>, i: nat, a: AckId, s: Settlement)
    requires ValidFrom(INIT, evs) && i < |evs| && a !in RunFrom(INIT, evs).entries
    ensures !Offers(evs, i, a, s)
  {
    forall c: Event | c.Create? && c.ack == a ensures !CreatedBefore(evs, i, c) {
      assert CreatedBefore(evs, i, c) ==> CreatedBefore(evs, |evs|, c);
      CreationIsRecorded(evs, c);
    }
  }

  ghost predicate Agrees(evs: seq<Event>, a: AckId, settlement: Option<Settlement>) {
    match settlement
    case None => forall i, t | 0 <= i < |evs| :: !Offers(evs, i, a, t)
    case Some(s) => exists i | 0 <= i < |evs| :: FirstOffer(evs, i, a, s)
  }

  lemma {:induction false} HistoryAgrees(evs: seq<Event>, a: AckId)
    requires ValidFrom(INIT, evs) && a in RunFrom(INIT, evs).entries
    ensures Agrees(evs, a, RunFrom(INIT, evs).entries[a].settlement)
  {
    var n := |evs| - 1;
    var pre := RunFrom(INIT, Prefix(evs));
    var now := RunFrom(INIT, evs).entries[a].settlement;
    forall i, t | 0 <= i < n ensures Offers(evs, i, a, t) <==> Offers(Prefix(evs), i, a, t) {
      OffersOfPrefix(evs, i, a, t);
    }
    if a !in pre.entries {
      forall i, t | 0 <= i < n ensures !Offers(evs, i, a, t) {
        NothingIsOfferedBeforeCreation(Prefix(evs), i, a, t);
      }
    } else {
      HistoryAgrees(Prefix(evs), a);
      match pre.entries[a].settlement
      case Some(s) =>
        assert now == Some(s);
        var i :| 0 <= i < n && FirstOffer(Prefix(evs), i, a, s);
        assert FirstOffer(evs, i, a, s);
      case None =>
        forall t ensures Offers(evs, n, a, t) <==> now == Some(t) {
          OfferToExisting(evs, a, t);
          RunKeepsInv(INIT, Prefix(evs));
          UnsettledTakesTheOffer(pre, evs[n], a, t);
        }
        if now.Some? {
          assert FirstOffer(evs, n, a, now.value);
        }
    }
  }

  lemma OneOfferPerEvent(evs: seq<Event>, i: nat, a: AckId, s: Settlement, t: Settlement)
    requires ValidFrom(INIT, evs) && i < |evs| && Offers(evs, i, a, s) && Offers(evs, i, a, t)
    ensures s == t
  {
    forall c: Event | CreatedBefore(evs, i, c) && c.ack == a
      ensures a in RunFrom(INIT, evs).entries && c == CreationOf(a, RunFrom(INIT, evs).entries[a])
    {
      CreationIsRecorded(evs, c);
      assert CreatedBefore(evs, |evs|, c);
    }
  }

  /** First settlement wins: after any run, an entry is settled with `s` exactly when the first event of the run that
      offered it anything offered `s`. */
  lemma FirstOfferWins(evs: seq<Event>, a: AckId, s: Settlement)
    requires ValidFrom(INIT, evs) && a in RunFrom(INIT, evs).entries
    ensures RunFrom(INIT, evs).entries[a].settlement == Some(s) <==>
              exists i | 0 <= i < |evs| :: FirstOffer(evs, i, a, s)
  {
    HistoryAgrees(evs, a);
    var now := RunFrom(INIT, evs).entries[a].settlement;
    if i :| 0 <= i < |evs| && FirstOffer(evs, i, a, s) {
      var k :| 0 <= k < |evs| && FirstOffer(evs, k, a, now.value);
      assert !(i < k) && !(k < i);
      OneOfferPerEvent(evs, i, a, s, now.value);
    }
  }

  ghost predicate Answered(st: State, a: AckId, w: WaiterId) {
    a in st.entries && w in st.entries[a].delivered
  }

  ghost predicate Parked(st: State, a: AckId, w: WaiterId) {
    a in st.entries && w in st.entries[a].waiting
  }

  lemma WaiterStep(st: State, ev: Event, a: AckId, w: WaiterId)
    requires Enabled(st, ev)
    ensures Answered(Next(st, ev), a, w) || Parked(Next(st, ev), a, w) <==>
              Answered(st, a, w) || Parked(st, a, w) || ev == Wait(a, w)
  {
    if a in st.entries {
      forall s { DeliverReaches(st.entries[a].delivered, st.entries[a].waiting, s);  }
    }
  }

  lemma {:induction false} WaitersAreKept(evs: seq<Event>, a: AckId, w: WaiterId)
    requires ValidFrom(INIT, evs)
    ensures Wait(a, w) in evs <==> Answered(RunFrom(INIT, evs), a, w) || Parked(RunFrom(INIT, evs), a, w)
  {
    if evs != [] {
      WaitersAreKept(Prefix(evs), a, w);
      WaiterStep(RunFrom(INIT, Prefix(evs)), Last(evs), a, w);
      assert evs == Prefix(evs) + [Last(evs)];
    }
  }

  /** Every waiter, started before or after the settlement, gets the entry's one settlement, and nobody else gets
      anything; a waiter that has been answered finds its entry gone from the registry. */
  lemma WaitersGetTheSettlement(evs: seq<Event>, a: AckId, w: WaiterId)
    requires ValidFrom(INIT, evs)
    ensures var st := RunFrom(INIT, evs);
      if Wait(a, w) !in evs then !Answered(st, a, w)
      else a in st.entries && match st.entries[a].settlement
        case Some(s) => Answered(st, a, w) && st.entries[a].delivered[w] == s && a !in st.registry
        case None => Parked(st, a, w) && !Answered(st, a, w) && a in st.registry
  {
    var st := RunFrom(INIT, evs);
    WaitersAreKept(evs, a, w);
    RunKeepsInv(INIT, evs);
    if a in st.entries {
      assert EntryInv(st.entries[a], a in st.registry);
    }
  }

  /** Closing a run node frees its worker: whatever happened before, none of its entries is left registered, and no
      waiter of theirs is left without an answer; the entries of other nodes are untouched. */
  lemma ClosingFreesTheWorker(evs: seq<Event>, runNode: NodeId, error: Failure, a: AckId)
    requires ValidFrom(INIT, evs) && a in RunFrom(INIT, evs).entries
    ensures var before, after := RunFrom(INIT, evs), Next(RunFrom(INIT, evs), CloseRunNode(runNode, error));
      if before.entries[a].runNode != runNode then
        after.entries[a] == before.entries[a] && (a in after.registry <==> a in before.registry)
      else
        && a !in after.registry && after.entries[a].waiting == []
        && after.entries[a].settlement ==
             (if before.entries[a].settlement.Some? then before.entries[a].settlement else Some(Reject(error)))
        && forall w | Wait(a, w) in evs :: Answered(after, a, w)
  {
    var before := RunFrom(INIT, evs);
    RunKeepsInv(INIT, evs);
    assert EntryInv(before.entries[a], a in before.registry);
    DeliverReaches(before.entries[a].delivered, before.entries[a].waiting, Reject(error));
    forall w | Wait(a, w) in evs ensures Answered(before, a, w) || Parked(before, a, w) {
      WaitersAreKept(evs, a, w);
    }
  }

  /** An abort settles the unsettled entries of its signal, but only the first time the signal fires: an entry
      created on a signal that has already fired is never settled by it. */
  lemma LateListenersHearNothing(evs: seq<Event>, source: SignalId, reason: string, a: AckId)
    requires ValidFrom(INIT, evs) && a in RunFrom(INIT, evs).entries
    requires RunFrom(INIT, evs).entries[a].settlement.None? && RunFrom(INIT, evs).entries[a].signal == Some(source)
    ensures var after := Next(RunFrom(INIT, evs), Abort(source, reason));
      (after.entries[a].settlement == Some(Reject(Aborted(reason))) <==> !AbortedBefore(evs, |evs|, source)) &&
      (AbortedBefore(evs, |evs|, source) ==> after == RunFrom(INIT, evs))
  {
    var st := RunFrom(INIT, evs);
    AbortIsRecorded(evs, source);
    RunKeepsInv(INIT, evs);
    assert EntryInv(st.entries[a], a in st.registry);
  }

  /** Such an entry: its signal fires, the entry is created on it, and the signal fires again in vain. */
  lemma DeafEntry(reason: string)
    ensures var evs := [Abort(0, reason), Create(0, 1, Some(0), 0.0)];
      && ValidFrom(INIT, evs) && 0 in RunFrom(INIT, evs).entries
      && RunFrom(INIT, evs).entries[0].settlement.None?
      && Next(RunFrom(INIT, evs), Abort(0, reason)) == RunFrom(INIT, evs)
  {
    var first, evs := [Abort(0, reason)], [Abort(0, reason), Create(0, 1, Some(0), 0.0)];
    assert Prefix(first) == [] && Prefix(evs) == first;
    assert AbortedBefore(evs, |evs|, 0) by {
      assert evs[0] == Abort(0, reason);
    }
    LateListenersHearNothing(evs, 0, reason, 0);
  }

  // ---------- after a run node has closed ----------

  lemma {:induction false} RunOfSum(st: State, evs: seq<Event>, more: seq<Event>)
    requires ValidFrom(st, evs + more)
    ensures ValidFrom(st, evs) && ValidFrom(RunFrom(st, evs), more)
    ensures RunFrom(st, evs + more) == RunFrom(RunFrom(st, evs), more)
    decreases |more|
  {
    if more == [] {
      assert evs + more == evs;
    } else {
      assert Prefix(evs + more) == evs + Prefix(more) && Last(evs + more) == Last(more);
      RunOfSum(st, evs, Prefix(more));
    }
  }

  ghost predicate Creates(evs: seq<Event>, a: AckId) {
    exists ev | ev in evs :: ev.Create? && ev.ack == a
  }

  /** An entry is there from before or has been created meanwhile, but never both. */
  lemma {:induction false} OldOrNew(st: State, evs: seq<Event>, a: AckId)
    requires ValidFrom(st, evs)
    ensures a in RunFrom(st, evs).entries <==> a in st.entries || Creates(evs, a)
    ensures !(a in st.entries && Creates(evs, a))
  {
    if evs != [] {
      OldOrNew(st, Prefix(evs), a);
      assert evs == Prefix(evs) + [Last(evs)];
      assert Creates(evs, a) <==> Creates(Prefix(evs), a) || (Last(evs).Create? && Last(evs).ack == a);
    }
  }

  /** Whatever happens after a run node has closed, exactly those of its entries are registered that have been created
      since and are not settled yet: that close does not reach them. */
  lemma RegisteredAfterTheClose(evs: seq<Event>, runNode: NodeId, error: Failure, more: seq<Event>, a: AckId)
    requires ValidFrom(INIT, evs + [CloseRunNode(runNode, error)] + more)
    ensures var st := RunFrom(INIT, evs + [CloseRunNode(runNode, error)] + more);
      a in st.entries && st.entries[a].runNode == runNode ==>
        (a in st.registry <==> st.entries[a].settlement.None? && Creates(more, a))
  {
    var closed := evs + [CloseRunNode(runNode, error)];
    RunOfSum(INIT, closed, more);
    RunKeepsInv(INIT, closed + more);
    var atClose, st := RunFrom(INIT, closed), RunFrom(INIT, closed + more);
    OldOrNew(atClose, more, a);
    if a in st.entries {
      assert EntryInv(st.entries[a], a in st.registry);
    }
    if a in atClose.entries {
      assert Prefix(closed) == evs;
      RunKeepsInv(INIT, closed);
      SettlementIsFinal(atClose, more, a);
      if atClose.entries[a].runNode == runNode {
        ClosingFreesTheWorker(evs, runNode, error, a);
      }
    }
  }

  /** So nothing of a closed run node is left once nothing is created on it any more. */
  lemma NothingLeftAfterTheClose(evs: seq<Event>, runNode: NodeId, error: Failure, more: seq<Event>)
    requires ValidFrom(INIT, evs + [CloseRunNode(runNode, error)] + more)
    requires forall ev | ev in more && ev.Create? :: ev.runNode != runNode
    ensures RegisteredBy(RunFrom(INIT, evs + [CloseRunNode(runNode, error)] + more), runNode) == {}
  {
    var run := evs + [CloseRunNode(runNode, error)] + more;
    var st := RunFrom(INIT, run);
    forall a | a in RegisteredBy(st, runNode) ensures false {
      RegisteredAfterTheClose(evs, runNode, error, more, a);
      var ev :| ev in more && ev.Create? && ev.ack == a;
      assert ev in run;
      var i :| 0 <= i < |run| && run[i] == ev;
      assert CreatedBefore(run, |run|, ev);
      CreationIsRecorded(run, ev);
    }
  }
}
