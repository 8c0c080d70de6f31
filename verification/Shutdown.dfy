/**
 Closing the resources of a config node, in time.

 Every library promise settles at an arbitrary moment or never, every call may throw, and a connection's status is
 whatever it happens to be each time it is read. Times are in milliseconds.
 */
module Shutdown {
  import opened Wrappers

  type Error = string

  datatype Outcome = Fulfilled | Rejected(error: Error)

  /** A promise, by how long after its creation it settles. */
  datatype Promise = Settles(after: nat, outcome: Outcome) | Never

  datatype Call = Throws(error: Error) | Returns(promise: Promise)

  /** How an async function ends: when, and whether it rejects. */
  datatype Finish = Done(at: nat) | Failed(at: nat, error: Error) | Hangs

  /** What `getBackend` gives access to: nothing, an exception, a backend without raw clients, or raw Redis clients. */
  datatype Backend = NoGetter | GetterThrows(error: Error) | NoRawClients | RawClients(blocking: bool)

  /** A BullMQ owner. `timerWins` settles the race when close() and the budget fall due in the same millisecond. */
  datatype Owner = Owner(
    close: Call,
    timerWins: bool,
    backend: Backend,
    lockManager: Option<Call>,
    stalledCheckStopper: Option<Option<Error>>)  // the inner option is what calling it throws

  /** A raw ioredis connection: its status right after its owner's close() was called, its status when its own turn
      comes, and what quit() would do. */
  datatype Connection = Connection(readyAtBudget: bool, readyAtQuit: bool, quit: Option<Call>, timerWins: bool)

  /** PostgreSQL owners have no companion connection. */
  datatype Pair = Pair(owner: Owner, connection: Option<Connection>)

  datatype Step =
    | ForceDisconnect(at: nat)
    | DisconnectClient
    | DisconnectBlockingClient
    | CloseLockManager
    | StopStalledChecker
    | CloseConnection(at: nat)
    | DisconnectConnection

  const CLOSE_GRACE_MS: nat := 1000
  const GRACEFUL_CLOSE_MS: nat := 10000
  const POSTGRES_CONNECTION_TIMEOUT_MS: nat := 10000
  const POSTGRES_CLOSE_MS: nat := POSTGRES_CONNECTION_TIMEOUT_MS + CLOSE_GRACE_MS
  const NODE_RED_CLOSE_MS: nat := 15000

  function CloseBudgetFor(connection: Option<Connection>): nat {
    match connection
    case None => POSTGRES_CLOSE_MS
    case Some(c) => if c.readyAtBudget then GRACEFUL_CLOSE_MS else CLOSE_GRACE_MS
  }

  /** Whether a promise is still open when the budget runs out. */
  predicate Late(p: Promise, budget: nat, timerWins: bool) {
    p.Never? || p.after > budget || (p.after == budget && timerWins)
  }

  /** Races the promise, whose rejection counts as settling, against a timer that is cancelled afterwards. */
  method SettleWithin(p: Promise, ms: nat, timerWins: bool, now: nat) returns (timedOut: bool, at: nat)
    ensures timedOut <==> Late(p, ms, timerWins)
    ensures now <= at <= now + ms
    ensures at == if timedOut then now + ms else now + p.after
  {
    match p
    case Never => timedOut, at := true, now + ms;
    case Settles(after, _) =>
      timedOut := ms < after || (ms == after && timerWins);
      at := now + if timedOut then ms else after;
  }

  // ---------- forcing an owner down ----------

  /** Whether a forced disconnect gets as far as the lock manager and the stalled checker. */
  predicate ReachesTimers(o: Owner) {
    o.backend.NoRawClients? || o.backend.RawClients?
  }

  predicate LockHangs(o: Owner) {
    o.lockManager.Some? && o.lockManager.value == Returns(Never)
  }

  predicate LockFails(o: Owner) {
    o.lockManager.Some? &&
    match o.lockManager.value
    case Throws(_) => true
    case Returns(p) => p.Settles? && p.outcome.Rejected?
  }

  function LockDelay(o: Owner): nat {
    if ReachesTimers(o) && o.lockManager.Some? && o.lockManager.value.Returns? && o.lockManager.value.promise.Settles?
    then o.lockManager.value.promise.after else 0
  }

  /** Whether the stalled checker gets stopped: only if the lock manager lets go first. */
  predicate StopsChecker(o: Owner) {
    ReachesTimers(o) && o.stalledCheckStopper.Some? && !LockHangs(o) && !LockFails(o)
  }

  predicate ForcingHangs(o: Owner) {
    ReachesTimers(o) && LockHangs(o)
  }

  predicate ForcingFails(o: Owner) {
    || o.backend.GetterThrows?
    || (ReachesTimers(o) && LockFails(o))
    || (StopsChecker(o) && o.stalledCheckStopper.value.Some?)
  }

  /** What forcing reports when it fails: the first thing that went wrong. */
  function ForcingError(o: Owner): Error
    requires ForcingFails(o)
  {
    if o.backend.GetterThrows? then o.backend.error
    else if LockFails(o) then
      match o.lockManager.value
      case Throws(e) => e
      case Returns(p) => p.outcome.error
    else o.stalledCheckStopper.value.value
  }

  function ForcingEnds(o: Owner, now: nat): Finish {
    if ForcingHangs(o) then Hangs
    else if ForcingFails(o) then Failed(now + LockDelay(o), ForcingError(o))
    else Done(now + LockDelay(o))
  }

  /** The first thing that goes wrong ends a forced disconnect, and is what it reports. */
  lemma FirstFailureEnds(o: Owner, now: nat)
    ensures o.backend == NoGetter ==> ForcingEnds(o, now) == Done(now)
    ensures forall e | o.backend == GetterThrows(e) :: ForcingEnds(o, now) == Failed(now, e)
    ensures o.backend == NoRawClients || o.backend.RawClients? ==>
      match o.lockManager
      case Some(Throws(e)) => ForcingEnds(o, now) == Failed(now, e)
      case Some(Returns(Never)) => ForcingEnds(o, now) == Hangs
      case Some(Returns(Settles(d, Rejected(e)))) => ForcingEnds(o, now) == Failed(now + d, e)
      case Some(Returns(Settles(d, Fulfilled))) =>
        ForcingEnds(o, now) == if o.stalledCheckStopper.Some? && o.stalledCheckStopper.value.Some?
          then Failed(now + d, o.stalledCheckStopper.value.value) else Done(now + d)
      case None =>
        ForcingEnds(o, now) == if o.stalledCheckStopper.Some? && o.stalledCheckStopper.value.Some?
          then Failed(now, o.stalledCheckStopper.value.value) else Done(now)
  {
  }

  /** The end of a forced disconnect: the lock-renewal timer, then the stalled checker. */
  method StopTimers(o: Owner, now: nat) returns (finish: Finish, log: seq<Step>)
    requires ReachesTimers(o)
    ensures finish == ForcingEnds(o, now)
    ensures forall s | s in log :: s == CloseLockManager || s == StopStalledChecker
    ensures CloseLockManager in log <==> o.lockManager.Some?
    ensures StopStalledChecker in log <==> StopsChecker(o)
    // when nothing goes wrong the lock manager is awaited, and the stalled checker is stopped after it
    ensures forall d: nat | o.lockManager == Some(Returns(Settles(d, Fulfilled))) && o.stalledCheckStopper == Some(None) ::
      log == [CloseLockManager, StopStalledChecker] && finish == Done(now + d)
  {
    var at := now;
    log := [];
    if o.lockManager.Some? {
      log := [CloseLockManager];
      match o.lockManager.value {
        case Throws(e) => return Failed(at, e), log;
        case Returns(Never) => return Hangs, log;
        case Returns(Settles(after, outcome)) =>
          at := at + after;
          if outcome.Rejected? {
            return Failed(at, outcome.error), log;
          }
      }
    }
    if o.stalledCheckStopper.Some? {
      log := log + [StopStalledChecker];
      if o.stalledCheckStopper.value.Some? {
        return Failed(at, o.stalledCheckStopper.value.value), log;
      }
    }
    finish := Done(at);
  }

  method DisconnectClients(backend: Backend) returns (log: seq<Step>)
    ensures forall s | s in log :: s == DisconnectClient || s == DisconnectBlockingClient
    ensures DisconnectClient in log <==> backend.RawClients?
    ensures DisconnectBlockingClient in log <==> backend.RawClients? && backend.blocking
    ensures backend == RawClients(true) ==> log == [DisconnectClient, DisconnectBlockingClient]
  {
    log := [];
    if backend.RawClients? {
      log := [DisconnectClient];
      if backend.blocking {
        log := log + [DisconnectBlockingClient];
      }
    }
  }

  /** What a forced disconnect leaves behind: it is announced once, at its start, and takes the steps its owner allows. */
  ghost predicate ForcedLog(o: Owner, now: nat, log: seq<Step>) {
    && log != [] && log[0] == ForceDisconnect(now)
    && (forall s | s in log[1..] :: !s.ForceDisconnect? && !s.CloseConnection? && s != DisconnectConnection)
    && (DisconnectClient in log <==> o.backend.RawClients?)
    && (DisconnectBlockingClient in log <==> o.backend.RawClients? && o.backend.blocking)
    && (CloseLockManager in log <==> ReachesTimers(o) && o.lockManager.Some?)
    && (StopStalledChecker in log <==> StopsChecker(o))
  }

  method ForceDisconnectOwner(o: Owner, now: nat) returns (finish: Finish, log: seq<Step>)
    ensures finish == ForcingEnds(o, now)
    ensures ForcedLog(o, now, log)
    // a Redis worker whose lock manager closes: its sockets go first, then its lock-renewal timer, then its checker
    ensures forall d: nat | o.backend == RawClients(true) && o.lockManager == Some(Returns(Settles(d, Fulfilled))) &&
      o.stalledCheckStopper == Some(None) ::
      log == [ForceDisconnect(now), DisconnectClient, DisconnectBlockingClient, CloseLockManager, StopStalledChecker] &&
      finish == Done(now + d)
  {
    log := [ForceDisconnect(now)];
    if o.backend.NoGetter? {
      return Done(now), log;
    }
    if o.backend.GetterThrows? {
      return Failed(now, o.backend.error), log;
    }
    var clients := DisconnectClients(o.backend);
    var timers;
    finish, timers := StopTimers(o, now);
    log := log + (clients + timers);
  }

  // ---------- closing one resource ----------

  /** Whether the owner's own close() outlives its budget; close() is called before the budget is read. */
  predicate OwnerIsLate(o: Owner, connection: Option<Connection>) {
    o.close.Returns? && Late(o.close.promise, CloseBudgetFor(connection), o.timerWins)
  }

  predicate OwnerHangs(o: Owner, connection: Option<Connection>) {
    OwnerIsLate(o, connection) && ForcingHangs(o)
  }

  predicate OwnerFails(o: Owner, connection: Option<Connection>) {
    o.close.Throws? || (OwnerIsLate(o, connection) && ForcingFails(o))
  }

  function OwnerError(o: Owner, connection: Option<Connection>): Error
    requires OwnerFails(o, connection)
  {
    if o.close.Throws? then o.close.error else ForcingError(o)
  }

  /** When the owner's part ends, counted from its start: at once, when its close settles, or when it has been forced
      down at the end of its budget. */
  function OwnerTakes(o: Owner, connection: Option<Connection>): nat {
    if o.close.Throws? then 0
    else if OwnerIsLate(o, connection) then CloseBudgetFor(connection) + LockDelay(o)
    else o.close.promise.after
  }

  function OwnerEnds(o: Owner, connection: Option<Connection>, now: nat): Finish {
    if OwnerHangs(o, connection) then Hangs
    else if OwnerFails(o, connection) then Failed(now + OwnerTakes(o, connection), OwnerError(o, connection))
    else Done(now + OwnerTakes(o, connection))
  }

  /** Whether an owner that starts to close at `now` is cut off exactly if it is still open `ms` later, and then at that
      moment; the timer decides when both fall due together. */
  ghost predicate CutOffAfter(ms: nat, o: Owner, now: nat, log: seq<Step>) {
    && (forall s | s in log && s.ForceDisconnect? :: s == ForceDisconnect(now + ms))
    && (ForceDisconnect(now + ms) in log <==>
          o.close.Returns? && match o.close.promise
            case Never => true
            case Settles(after, _) => after > ms || (after == ms && o.timerWins))
  }

  /** The budgets: 10000 ms on a ready connection, 1000 ms on any other, 11000 ms on PostgreSQL, which has none. */
  ghost predicate CutOffInTime(o: Owner, connection: Option<Connection>, now: nat, log: seq<Step>) {
    && (connection.Some? && connection.value.readyAtBudget ==> CutOffAfter(10000, o, now, log))
    && (connection.Some? && !connection.value.readyAtBudget ==> CutOffAfter(1000, o, now, log))
    && (connection.None? ==> CutOffAfter(11000, o, now, log))
  }

  /** What closing an owner logs: nothing, unless it has to be forced down at the end of its budget. */
  ghost predicate OwnerLog(o: Owner, connection: Option<Connection>, now: nat, log: seq<Step>) {
    if OwnerIsLate(o, connection) then ForcedLog(o, now + CloseBudgetFor(connection), log) else log == []
  }

  method CloseOwner(o: Owner, connection: Option<Connection>, now: nat) returns (finish: Finish, log: seq<Step>)
    ensures finish == OwnerEnds(o, connection, now)
    ensures !finish.Hangs? ==> finish.at <= now + CloseBudgetFor(connection) + LockDelay(o)
    ensures OwnerLog(o, connection, now, log)
    ensures CutOffInTime(o, connection, now, log)
    // an owner that closes in time ends when it has closed, whether it fulfils or rejects
    ensures forall d: nat, outcome | o.close == Returns(Settles(d, outcome)) && log == [] :: finish == Done(now + d)
    ensures forall e | o.close == Throws(e) :: finish == Failed(now, e) && log == []
  {
    if o.close.Throws? {
      return Failed(now, o.close.error), [];
    }
    var timedOut, at := SettleWithin(o.close.promise, CloseBudgetFor(connection), o.timerWins, now);
    if timedOut {
      finish, log := ForceDisconnectOwner(o, at);
    } else {
      finish, log := Done(at), [];
    }
  }

  predicate RawFails(c: Connection) {
    c.readyAtQuit && c.quit.Some? && c.quit.value.Throws?
  }

  /** A raw connection is quit only while it is ready, and cut off when it is not or when quitting takes too long. */
  predicate RawIsCut(c: Connection) {
    || !c.readyAtQuit
    || c.quit.None?
    || (c.quit.value.Returns? && Late(c.quit.value.promise, CLOSE_GRACE_MS, c.timerWins))
  }

  function RawTakes(c: Connection): nat {
    if !c.readyAtQuit || c.quit.None? || c.quit.value.Throws? then 0
    else if RawIsCut(c) then CLOSE_GRACE_MS
    else c.quit.value.promise.after
  }

  method CloseRaw(c: Connection, now: nat) returns (finish: Finish, log: seq<Step>)
    ensures finish == if RawFails(c) then Failed(now, c.quit.value.error) else Done(now + RawTakes(c))
    ensures finish.at <= now + CLOSE_GRACE_MS
    // it is either quit in time or cut off, unless quit itself throws
    ensures log == if RawIsCut(c) then [DisconnectConnection] else []
    // quitting a ready connection gets 1000 ms, and any other connection is cut off at once
    ensures !c.readyAtQuit ==> finish == Done(now) && log == [DisconnectConnection]
    ensures c.readyAtQuit && c.quit == Some(Returns(Never)) ==> finish == Done(now + 1000) && log == [DisconnectConnection]
    ensures forall d: nat, outcome | c.readyAtQuit && c.quit == Some(Returns(Settles(d, outcome))) ::
      (d > 1000 ==> finish == Done(now + 1000) && log == [DisconnectConnection]) &&
      (d < 1000 ==> finish == Done(now + d) && log == [])
  {
    log := [];
    var at := now;
    if c.readyAtQuit && c.quit.Some? {
      if c.quit.value.Throws? {
        return Failed(at, c.quit.value.error), log;
      }
      var timedOut;
      timedOut, at := SettleWithin(c.quit.value.promise, CLOSE_GRACE_MS, c.timerWins, now);
      if timedOut {
        log := log + [DisconnectConnection];
      }
    } else {
      log := log + [DisconnectConnection];
    }
    finish := Done(at);
  }

  // ---------- closing a pair ----------

  /** The longest a pair may take, lock manager aside. */
  function PairBudget(p: Pair): nat {
    CloseBudgetFor(p.connection) + if p.connection.Some? then CLOSE_GRACE_MS else 0
  }

  function PairTakes(p: Pair): nat {
    OwnerTakes(p.owner, p.connection) + if p.connection.Some? then RawTakes(p.connection.value) else 0
  }

  predicate PairHangs(p: Pair) {
    OwnerHangs(p.owner, p.connection)
  }

  predicate PairFails(p: Pair) {
    !PairHangs(p) && (OwnerFails(p.owner, p.connection) || (p.connection.Some? && RawFails(p.connection.value)))
  }

  /** The owner's error is the one reported, else the companion's. */
  function PairError(p: Pair): Error
    requires PairFails(p)
  {
    if OwnerFails(p.owner, p.connection) then OwnerError(p.owner, p.connection) else p.connection.value.quit.value.error
  }

  function PairEnds(p: Pair, now: nat): (finish: Finish)
    ensures !finish.Hangs? ==> now <= finish.at <= now + PairBudget(p) + LockDelay(p.owner)
  {
    if PairHangs(p) then Hangs
    else if PairFails(p) then Failed(now + PairTakes(p), PairError(p))
    else Done(now + PairTakes(p))
  }

  /** The two halves of a pair follow each other; the owner's error is the one reported, else the companion's. */
  lemma OwnerThenCompanionEnds(o: Owner, c: Connection, now: nat, d: nat, q: nat, ending: Outcome, other: Outcome,
                               e: Error, f: Error)
    requires d < 1000 && q < 1000
    ensures var owner := o.(close := Returns(Settles(d, ending)));
      var quits := c.(readyAtQuit := true, quit := Some(Returns(Settles(q, other))));
      var throws := c.(readyAtQuit := true, quit := Some(Throws(f)));
      && PairEnds(Pair(owner, None), now) == Done(now + d)
      && PairEnds(Pair(owner, Some(quits)), now) == Done(now + d + q)
      && PairEnds(Pair(owner, Some(throws)), now) == Failed(now + d, f)
      && PairEnds(Pair(owner, Some(c.(readyAtQuit := false))), now) == Done(now + d)
    ensures var owner := o.(close := Throws(e));
      var quits := c.(readyAtQuit := true, quit := Some(Returns(Settles(q, other))));
      var throws := c.(readyAtQuit := true, quit := Some(Throws(f)));
      && PairEnds(Pair(owner, None), now) == Failed(now, e)
      && PairEnds(Pair(owner, Some(throws)), now) == Failed(now, e)
      && PairEnds(Pair(owner, Some(quits)), now) == Failed(now + q, e)
  {
  }

  /** Whether the companion's turn comes: unless the owner hangs, however the owner ended. */
  predicate ReachesCompanion(p: Pair) {
    p.connection.Some? && !PairHangs(p)
  }

  function Forced(log: seq<Step>): nat {
    if log == [] then 0 else (if log[0].ForceDisconnect? then 1 else 0) + Forced(log[1..])
  }

  lemma {:induction false} NoneForced(log: seq<Step>)
    requires forall s | s in log :: !s.ForceDisconnect?
    ensures Forced(log) == 0
  {
    if log != [] {
      NoneForced(log[1..]);
    }
  }

  lemma {:induction false} ForcedOfSum(a: seq<Step>, b: seq<Step>)
    ensures Forced(a + b) == Forced(a) + Forced(b)
  {
    if a == [] {
      assert a + b == b;
    } else {
      ForcedOfSum(a[1..], b);
      assert (a + b)[1..] == a[1..] + b;
    }
  }

  lemma ForcedOnce(o: Owner, now: nat, log: seq<Step>)
    requires ForcedLog(o, now, log)
    ensures Forced(log) == 1 && ForceDisconnect(now) in log
    ensures forall s | s in log :: !s.CloseConnection? && s != DisconnectConnection
  {
    NoneForced(log[1..]);
    assert log == [log[0]] + log[1..];
  }

  lemma CutOffAnyway(o: Owner, connection: Option<Connection>, now: nat, log: seq<Step>, more: seq<Step>)
    requires CutOffInTime(o, connection, now, log) && forall s | s in more :: !s.ForceDisconnect?
    ensures CutOffInTime(o, connection, now, log + more)
  {
    assert forall s :: s in log + more <==> s in log || s in more;
  }

  /** What closing a pair logs. */
  ghost predicate PairLog(p: Pair, now: nat, log: seq<Step>) {
    // the owner is cut off exactly when it is late, once, and at the end of its budget
    && Forced(log) == (if OwnerIsLate(p.owner, p.connection) then 1 else 0)
    && (OwnerIsLate(p.owner, p.connection) ==> ForceDisconnect(now + CloseBudgetFor(p.connection)) in log)
    // unless the owner hangs, its companion is closed afterwards, however the owner ended
    && (ReachesCompanion(p) ==> CloseConnection(now + OwnerTakes(p.owner, p.connection)) in log)
    && (!ReachesCompanion(p) ==> forall s | s in log :: !s.CloseConnection?)
    && (DisconnectConnection in log <==> ReachesCompanion(p) && RawIsCut(p.connection.value))
    // a worker that was cut off loses its sockets, and both of its timers if its lock manager lets go
    && (DisconnectClient in log <==> OwnerIsLate(p.owner, p.connection) && p.owner.backend.RawClients?)
    && (CloseLockManager in log <==>
          OwnerIsLate(p.owner, p.connection) && ReachesTimers(p.owner) && p.owner.lockManager.Some?)
    && (StopStalledChecker in log <==> OwnerIsLate(p.owner, p.connection) && StopsChecker(p.owner))
  }

  lemma OwnerAlone(p: Pair, now: nat, log: seq<Step>)
    requires OwnerLog(p.owner, p.connection, now, log) && !ReachesCompanion(p)
    ensures PairLog(p, now, log)
  {
    if OwnerIsLate(p.owner, p.connection) {
      ForcedOnce(p.owner, now + CloseBudgetFor(p.connection), log);
    }
  }

  lemma OwnerThenCompanion(p: Pair, now: nat, log: seq<Step>, companion: seq<Step>)
    requires OwnerLog(p.owner, p.connection, now, log) && ReachesCompanion(p)
    requires companion ==
      [CloseConnection(now + OwnerTakes(p.owner, p.connection))]
      + if RawIsCut(p.connection.value) then [DisconnectConnection] else []
    ensures PairLog(p, now, log + companion)
  {
    if OwnerIsLate(p.owner, p.connection) {
      ForcedOnce(p.owner, now + CloseBudgetFor(p.connection), log);
    }
    NoneForced(companion);
    ForcedOfSum(log, companion);
    assert companion[0] == CloseConnection(now + OwnerTakes(p.owner, p.connection));
    assert forall s :: s in log + companion <==> s in log || s in companion;
  }

  method CloseResourcePair(p: Pair, now: nat) returns (finish: Finish, log: seq<Step>)
    ensures finish == PairEnds(p, now)
    ensures PairLog(p, now, log)
    ensures CutOffInTime(p.owner, p.connection, now, log)
  {
    var ownerFinish, ownerLog := CloseOwner(p.owner, p.connection, now);
    if ownerFinish.Hangs? || p.connection.None? {
      OwnerAlone(p, now, ownerLog);
      return ownerFinish, ownerLog;
    }
    var rawFinish, rawLog := CloseRaw(p.connection.value, ownerFinish.at);
    var companion := [CloseConnection(ownerFinish.at)] + rawLog;
    OwnerThenCompanion(p, now, ownerLog, companion);
    CutOffAnyway(p.owner, p.connection, now, ownerLog, companion);
    log := ownerLog + companion;
    finish := if ownerFinish.Failed? then Failed(rawFinish.at, ownerFinish.error) else rawFinish;
  }

  // ---------- closing the config node ----------

  /** When Promise.all settles: with the earliest rejection, or else with the last fulfilment. */
  ghost predicate AllSettles(finishes: seq<Finish>, now: nat, all: Finish) {
    match all
    case Failed(at, error) =>
      && Failed(at, error) in finishes
      && forall f | f in finishes && f.Failed? :: at <= f.at
    case Done(at) =>
      && (forall f | f in finishes :: f.Done? && f.at <= at)
      && (at == now || Done(at) in finishes)
    case Hangs => Hangs in finishes && forall f | f in finishes :: !f.Failed?
  }

  function Combine(a: Finish, b: Finish): Finish {
    if a.Failed? then (if b.Failed? && b.at < a.at then b else a)
    else if b.Failed? then b
    else if a.Hangs? || b.Hangs? then Hangs
    else if a.at < b.at then b else a
  }

  lemma CombineSettles(finishes: seq<Finish>, now: nat, all: Finish, one: Finish)
    requires AllSettles(finishes, now, all) && (one.Hangs? || now <= one.at)
    ensures AllSettles(finishes + [one], now, Combine(all, one))
  {
    assert forall f :: f in finishes + [one] <==> f in finishes || f == one;
  }

  /** How the pairs end that all start closing at `now`. */
  function Ends(pairs: seq<Pair>, now: nat): seq<Finish> {
    seq(|pairs|, i requires 0 <= i < |pairs| => PairEnds(pairs[i], now))
  }

  /** When and how `done` is called: never exactly if some pair hangs and none fails; with an error exactly if some
      pair fails, even while others hang or are still closing. */
  lemma WhenDoneIsCalled(pairs: seq<Pair>, now: nat, done: Finish)
    requires AllSettles(Ends(pairs, now), now, done)
    ensures done.Hangs? <==> (exists p | p in pairs :: PairHangs(p)) && forall p | p in pairs :: !PairFails(p)
    ensures done.Failed? <==> exists p | p in pairs :: PairFails(p)
    ensures done.Done? ==> forall p | p in pairs :: PairEnds(p, now).Done? && PairEnds(p, now).at <= done.at
    ensures done.Failed? ==> forall p | p in pairs && PairEnds(p, now).Failed? :: done.at <= PairEnds(p, now).at
    ensures done.Failed? || (done.Done? && done.at != now) ==> exists p | p in pairs :: done == PairEnds(p, now)
  {
    var ends := Ends(pairs, now);
    forall p | p in pairs ensures PairEnds(p, now) in ends {
      var i :| 0 <= i < |pairs| && pairs[i] == p;
      assert ends[i] == PairEnds(p, now);
    }
    forall f | f in ends ensures exists p | p in pairs :: f == PairEnds(p, now) {
      var i :| 0 <= i < |ends| && ends[i] == f;
      assert pairs[i] in pairs;
    }
  }

  /** Config close is bounded by one pair, not the sum of all pairs. */
  lemma CloseIsBounded(pairs: seq<Pair>, now: nat, done: Finish, lockBound: nat)
    requires AllSettles(Ends(pairs, now), now, done) && !done.Hangs?
    requires forall p | p in pairs :: LockDelay(p.owner) <= lockBound
    ensures now <= done.at <= now + 11000 + lockBound
    ensures lockBound < 4000 ==> done.at < now + 15000
  {
    var ends := Ends(pairs, now);
    if done in ends {
      var i :| 0 <= i < |ends| && ends[i] == done;
      assert pairs[i] in pairs && ends[i] == PairEnds(pairs[i], now);
    }
  }

  /** The config node's close handler, called at `now`: every pair starts closing at once. `done` is called when and
      how the result says, or never if it hangs. */
  method OnClose(pairs: seq<Pair>, now: nat) returns (done: Finish)
    ensures AllSettles(Ends(pairs, now), now, done)
    ensures done.Hangs? <==> (exists p | p in pairs :: PairHangs(p)) && forall p | p in pairs :: !PairFails(p)
    ensures done.Failed? <==> exists p | p in pairs :: PairFails(p)
    // it is the earliest failure that is reported, and success is only reported after the last pair
    ensures done.Failed? ==> forall p | p in pairs && PairEnds(p, now).Failed? :: done.at <= PairEnds(p, now).at
    ensures done.Failed? ==> exists p | p in pairs :: done == PairEnds(p, now)
    ensures done.Done? ==> forall p | p in pairs :: PairEnds(p, now).Done? && PairEnds(p, now).at <= done.at
    ensures done.Done? && done.at != now ==> exists p | p in pairs :: done == PairEnds(p, now)
  {
    done := Done(now);
    for i := 0 to |pairs|
      invariant AllSettles(Ends(pairs, now)[..i], now, done)
    {
      var finish, _ := CloseResourcePair(pairs[i], now);
      CombineSettles(Ends(pairs, now)[..i], now, done, finish);
      assert Ends(pairs, now)[..i + 1] == Ends(pairs, now)[..i] + [finish];
      done := Combine(done, finish);
    }
    assert Ends(pairs, now)[..|pairs|] == Ends(pairs, now);
    WhenDoneIsCalled(pairs, now, done);
  }

  // ---------- what the code does not promise ----------

  /** A worker whose close() never settles, on a ready Redis connection. */
  function StuckWorker(lockManager: Call): Pair {
    var owner := Owner(Returns(Never), true, RawClients(true), Some(lockManager), Some(None));
    Pair(owner, Some(Connection(true, true, None, true)))
  }

  /** A lock manager that never settles keeps `done` from being called and the companion connection from being closed. */
  lemma HangingLockManager(now: nat, done: Finish)
    requires AllSettles(Ends([StuckWorker(Returns(Never))], now), now, done)
    ensures done.Hangs? && !ReachesCompanion(StuckWorker(Returns(Never)))
  {
    var p := StuckWorker(Returns(Never));
    assert p in [p];
    WhenDoneIsCalled([p], now, done);
  }

  /** A lock manager that fails to close leaves the stalled checker running, though the companion is closed. */
  lemma FailingLockManager(now: nat, e: Error, done: Finish)
    requires AllSettles(Ends([StuckWorker(Throws(e))], now), now, done)
    ensures var p := StuckWorker(Throws(e));
      p.owner.stalledCheckStopper.Some? && !StopsChecker(p.owner) && ReachesCompanion(p) && done.Failed? && done.error == e
  {
    var p := StuckWorker(Throws(e));
    assert p in [p];
    WhenDoneIsCalled([p], now, done);
    assert Ends([p], now) == [PairEnds(p, now)];
  }

  /** One failing pair has `done` called while another pair is still closing, and even if that one never ends. */
  lemma EarlyDone(now: nat, e: Error, other: Pair, done: Finish)
    requires PairHangs(other) || PairTakes(other) > 0
    requires AllSettles(Ends([Pair(Owner(Throws(e), true, NoGetter, None, None), None), other], now), now, done)
    requires !PairFails(other)
    ensures done == Failed(now, e) && (PairEnds(other, now).Hangs? || done.at < PairEnds(other, now).at)
  {
    var p := Pair(Owner(Throws(e), true, NoGetter, None, None), None);
    assert p in [p, other] && PairFails(p);
    WhenDoneIsCalled([p, other], now, done);
    assert Ends([p, other], now) == [PairEnds(p, now), PairEnds(other, now)];
  }
}
