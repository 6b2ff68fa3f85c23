/**
  `start` and `stop` with the idempotency wrapper around them
  (apps/backend/src/charging/charging.service.ts and apps/backend/src/common/idempotency.service.ts).

  A caller is one HTTP request. Every await is a place where any other step may run: steps of other
  callers with the same or other keys, any charging transaction, and the expiry of any Redis key.
 */
module GatewayCalls {
  import opened Common
  import opened SessionLifecycle
  import opened Charging
  import opened ChargingEffects

  datatype Op = START | STOP

  datatype Call = Call(op: Op, sid: nat)

  /** The Redis key: operation, user and session make the scope, then the client's own key. */
  datatype Key = Key(op: Op, user: nat, sid: nat, key: nat)

  datatype Outcome = Cached | InProgress | Replied | Failed

  datatype Phase =
    | Looking                    // before redis get
    | Missed                     // get answered nothing, before set NX
    | Producing                  // before the first transaction
    | Registering                // start only: before registerConnector
    | Calling                    // before the gateway call
    | Waiting                    // the gateway was called
    | Committing(meterWh: int)   // the gateway answered
    | Failing                    // before failSession
    | Storing                    // before the result is written
    | Leaving(outcome: Outcome)  // before the lock is deleted
    | Done(outcome: Outcome)

  datatype Caller = Caller(op: Op, sid: nat, user: nat, key: Option<nat>, phase: Phase)

  datatype System = System(db: Db, results: set<Key>, locks: set<Key>, callers: map<nat, Caller>, calls: seq<Call>)

  function KeyOf(c: Caller): Key
    requires c.key.Some?
  {
    Key(c.op, c.user, c.sid, c.key.value)
  }

  datatype Event =
    | Arrive(id: nat, op: Op, sid: nat, user: nat, key: Option<nat>)
    | Get(id: nat)
    | Lock(id: nat)
    | Prepare(id: nat, now: int)
    | Register(id: nat, ok: bool)
    | CallGateway(id: nat)
    | Answer(id: nat, meterWh: Option<int>)
    | Commit(id: nat, now: int, settled: bool)
    | FailSession(id: nat, now: int)
    | Store(id: nat, ok: bool)
    | Leave(id: nat)
    | Other(action: Action)
    | Expire(redisKey: Key)

  predicate In(s: System, id: nat, phase: Phase) {
    id in s.callers && s.callers[id].phase == phase
  }

  function To(s: System, id: nat, phase: Phase): System
    requires id in s.callers
  {
    s.(callers := s.callers[id := s.callers[id].(phase := phase)])
  }

  function ArriveStep(s: System, id: nat, op: Op, sid: nat, user: nat, key: Option<nat>): System {
    if id in s.callers then s
    else s.(callers := s.callers[id := Caller(op, sid, user, key, if key.Some? then Looking else Producing)])
  }

  function GetStep(s: System, id: nat): System {
    if In(s, id, Looking) && s.callers[id].key.Some? then
      To(s, id, if KeyOf(s.callers[id]) in s.results then Done(Cached) else Missed)
    else s
  }

  function LockStep(s: System, id: nat): System {
    if In(s, id, Missed) && s.callers[id].key.Some? then
      var key := KeyOf(s.callers[id]);
      if key in s.locks then To(s, id, Done(InProgress)) else To(s, id, Producing).(locks := s.locks + {key})
    else s
  }

  function PrepareResult(db: Db, c: Caller, now: int): Option<Prepared> {
    if c.op == START then PrepareStartTx(db, c.sid, c.user, now) else PrepareStopTx(db, c.sid, c.user, now)
  }

  function PrepareStep(s: System, id: nat, now: int): System {
    if In(s, id, Producing) then
      var prepared := PrepareResult(s.db, s.callers[id], now);
      if prepared.None? then To(s, id, Leaving(Failed))
      else if !prepared.value.invokeGateway then To(s, id, Storing).(db := prepared.value.db)
      else To(s, id, if s.callers[id].op == START then Registering else Calling).(db := prepared.value.db)
    else s
  }

  function RegisterStep(s: System, id: nat, ok: bool): System {
    if In(s, id, Registering) then To(s, id, if ok then Calling else Failing) else s
  }

  function CallStep(s: System, id: nat): System {
    if In(s, id, Calling) then
      To(s, id, Waiting).(calls := s.calls + [Call(s.callers[id].op, s.callers[id].sid)])
    else s
  }

  function AnswerStep(s: System, id: nat, meterWh: Option<int>): System {
    if In(s, id, Waiting) then To(s, id, if meterWh.Some? then Committing(meterWh.value) else Failing) else s
  }

  function CommitAction(c: Caller, meterWh: int, now: int): Action {
    if c.op == START then CommitStart(c.sid, meterWh, now) else Complete(c.sid, meterWh, now)
  }

  function CommitStep(s: System, id: nat, now: int, settled: bool): System {
    if id in s.callers && s.callers[id].phase.Committing? then
      var action := CommitAction(s.callers[id], s.callers[id].phase.meterWh, now);
      To(s, id, if Tx(s.db, action).Some? && settled then Storing else Failing).(db := Step(s.db, action))
    else s
  }

  function FailStep(s: System, id: nat, now: int): System {
    if In(s, id, Failing) then
      To(s, id, Leaving(Failed)).(db := Step(s.db, Fail(s.callers[id].sid, false, now)))
    else s
  }

  function StoreStep(s: System, id: nat, ok: bool): System {
    if In(s, id, Storing) then
      if s.callers[id].key.None? then To(s, id, Done(Replied))
      else if ok then To(s, id, Leaving(Replied)).(results := s.results + {KeyOf(s.callers[id])})
      else To(s, id, Leaving(Failed))
    else s
  }

  function LeaveStep(s: System, id: nat): System {
    if id in s.callers && s.callers[id].phase.Leaving? then
      var left := To(s, id, Done(s.callers[id].phase.outcome));
      if s.callers[id].key.Some? then left.(locks := s.locks - {KeyOf(s.callers[id])}) else left
    else s
  }

  function Next(s: System, e: Event): System {
    match e
    case Arrive(id, op, sid, user, key) => ArriveStep(s, id, op, sid, user, key)
    case Get(id) => GetStep(s, id)
    case Lock(id) => LockStep(s, id)
    case Prepare(id, now) => PrepareStep(s, id, now)
    case Register(id, ok) => RegisterStep(s, id, ok)
    case CallGateway(id) => CallStep(s, id)
    case Answer(id, meterWh) => AnswerStep(s, id, meterWh)
    case Commit(id, now, settled) => CommitStep(s, id, now, settled)
    case FailSession(id, now) => FailStep(s, id, now)
    case Store(id, ok) => StoreStep(s, id, ok)
    case Leave(id) => LeaveStep(s, id)
    case Other(action) => s.(db := Step(s.db, action))
    case Expire(key) => s.(results := s.results - {key}, locks := s.locks - {key})
  }

  function RunSystem(s: System, events: seq<Event>): System {
    if events == [] then s else Next(RunSystem(s, events[..|events| - 1]), events[|events| - 1])
  }

  // ---------------------------------------------------------------- at most one call

  /** The lifecycle rank a session has once the operation's first transaction went through. */
  function Entered(op: Op): nat {
    if op == START then Rank(STARTING) else Rank(STOPPING)
  }

  predicate HasEntered(db: Db, call: Call) {
    Exists(db, call.sid) && Rank(db.sessions[call.sid].status) >= Entered(call.op)
  }

  /** A caller that is going to call the gateway and has not done so yet. */
  predicate Holds(c: Caller) {
    c.phase.Registering? || c.phase.Calling?
  }

  function Promised(c: Caller): Call {
    Call(c.op, c.sid)
  }

  ghost predicate OncePerSession(s: System) {
    && (forall i, j :: 0 <= i < j < |s.calls| ==> s.calls[i] != s.calls[j])
    && (forall i :: 0 <= i < |s.calls| ==> HasEntered(s.db, s.calls[i]))
    && (forall id :: id in s.callers && Holds(s.callers[id]) ==>
          HasEntered(s.db, Promised(s.callers[id])) && Promised(s.callers[id]) !in s.calls)
    && (forall id, other :: id in s.callers && other in s.callers && id != other &&
                            Holds(s.callers[id]) && Holds(s.callers[other])
          ==> Promised(s.callers[id]) != Promised(s.callers[other]))
  }

  lemma EnteredStays(db: Db, a: Action, call: Call)
    requires HasEntered(db, call)
    ensures HasEntered(Step(db, a), call)
  {
    RankNeverFallsInAStep(db, a, call.sid);
  }

  lemma DbStepKeepsOnce(s: System, a: Action)
    requires OncePerSession(s)
    ensures OncePerSession(s.(db := Step(s.db, a)))
  {
    forall call | HasEntered(s.db, call) ensures HasEntered(Step(s.db, a), call) {
      EnteredStays(s.db, a, call);
    }
  }

  /** A caller that gives up its claim, or never had one, disturbs nobody. */
  lemma MovingOnKeepsOnce(s: System, id: nat, phase: Phase)
    requires OncePerSession(s) && id in s.callers
    requires Holds(s.callers[id].(phase := phase)) ==> Holds(s.callers[id])
    ensures OncePerSession(To(s, id, phase))
  {
  }

  /** The first transaction of an operation asks for the gateway only when it entered the status itself. */
  lemma PrepareEnters(db: Db, c: Caller, now: int)
    requires PrepareResult(db, c, now).Some?
    ensures
      var action := if c.op == START then PrepareStart(c.sid, c.user, now) else PrepareStop(c.sid, c.user, now);
      && PrepareResult(db, c, now).value.db == Step(db, action)
      && (PrepareResult(db, c, now).value.invokeGateway ==>
            !HasEntered(db, Promised(c)) && HasEntered(Step(db, action), Promised(c)))
  {
  }

  lemma PrepareKeepsOnce(s: System, id: nat, now: int)
    requires OncePerSession(s) && In(s, id, Producing)
    ensures OncePerSession(PrepareStep(s, id, now))
  {
    var c := s.callers[id];
    var prepared := PrepareResult(s.db, c, now);
    if prepared.None? {
      MovingOnKeepsOnce(s, id, Leaving(Failed));
    } else {
      PrepareEnters(s.db, c, now);
      var action := if c.op == START then PrepareStart(c.sid, c.user, now) else PrepareStop(c.sid, c.user, now);
      var moved := s.(db := Step(s.db, action));
      DbStepKeepsOnce(s, action);
      if prepared.value.invokeGateway {
        ClaimKeepsOnce(s, moved, id, if c.op == START then Registering else Calling);
      } else {
        MovingOnKeepsOnce(moved, id, Storing);
      }
    }
  }

  lemma ClaimKeepsOnce(s: System, moved: System, id: nat, phase: Phase)
    requires OncePerSession(s) && OncePerSession(moved) && moved == s.(db := moved.db)
    requires In(s, id, Producing) && (phase.Registering? || phase.Calling?)
    requires !HasEntered(s.db, Promised(s.callers[id])) && HasEntered(moved.db, Promised(s.callers[id]))
    ensures OncePerSession(To(moved, id, phase))
  {
  }

  lemma CallKeepsOnce(s: System, id: nat)
    requires OncePerSession(s) && In(s, id, Calling)
    ensures OncePerSession(CallStep(s, id))
  {
  }

  lemma CommitKeepsOnce(s: System, id: nat, now: int, settled: bool)
    requires OncePerSession(s)
    ensures OncePerSession(CommitStep(s, id, now, settled))
  {
    if id in s.callers && s.callers[id].phase.Committing? {
      var action := CommitAction(s.callers[id], s.callers[id].phase.meterWh, now);
      DbStepKeepsOnce(s, action);
      MovingOnKeepsOnce(s.(db := Step(s.db, action)), id, CommitStep(s, id, now, settled).callers[id].phase);
    }
  }

  lemma FailKeepsOnce(s: System, id: nat, now: int)
    requires OncePerSession(s)
    ensures OncePerSession(FailStep(s, id, now))
  {
    if In(s, id, Failing) {
      var action := Fail(s.callers[id].sid, false, now);
      DbStepKeepsOnce(s, action);
      MovingOnKeepsOnce(s.(db := Step(s.db, action)), id, Leaving(Failed));
    }
  }

  lemma NextKeepsOnce(s: System, e: Event)
    requires OncePerSession(s)
    ensures OncePerSession(Next(s, e))
  {
    match e
    case Prepare(id, now) =>
      if In(s, id, Producing) { PrepareKeepsOnce(s, id, now); }
    case CallGateway(id) =>
      if In(s, id, Calling) { CallKeepsOnce(s, id); }
    case Commit(id, now, settled) => CommitKeepsOnce(s, id, now, settled);
    case FailSession(id, now) => FailKeepsOnce(s, id, now);
    case Other(action) => DbStepKeepsOnce(s, action);
    case Register(id, ok) =>
      if In(s, id, Registering) { MovingOnKeepsOnce(s, id, if ok then Calling else Failing); }
    case Answer(id, m) =>
      if In(s, id, Waiting) { MovingOnKeepsOnce(s, id, if m.Some? then Committing(m.value) else Failing); }
    case Arrive(id, op, sid, user, key) =>
      assert forall other :: other in Next(s, e).callers && Holds(Next(s, e).callers[other]) ==>
        other in s.callers && Next(s, e).callers[other] == s.callers[other];
    case Get(id) =>
      if GetStep(s, id) != s { MovingOnKeepsOnce(s, id, GetStep(s, id).callers[id].phase); }
    case Lock(id) =>
      if LockStep(s, id) != s { MovingOnKeepsOnce(s, id, LockStep(s, id).callers[id].phase); }
    case Store(id, ok) =>
      if StoreStep(s, id, ok) != s { MovingOnKeepsOnce(s, id, StoreStep(s, id, ok).callers[id].phase); }
    case Leave(id) =>
      if LeaveStep(s, id) != s { MovingOnKeepsOnce(s, id, LeaveStep(s, id).callers[id].phase); }
    case Expire(key) =>
  }

  /** No caller yet, no call yet; the tables may be in any state. */
  predicate Idle(s: System) {
    s.callers == map[] && s.calls == []
  }

  /**
    The gateway is called at most once: over every run of any number of callers with any keys, with
    expiring locks and any other transactions in between, no session is started twice and none is
    stopped twice at the gateway.
   */
  lemma {:induction false} GatewayIsCalledOnce(s: System, events: seq<Event>)
    requires Idle(s)
    ensures OncePerSession(RunSystem(s, events))
    ensures forall i, j :: 0 <= i < j < |RunSystem(s, events).calls| ==>
              RunSystem(s, events).calls[i] != RunSystem(s, events).calls[j]
  {
    if events != [] {
      GatewayIsCalledOnce(s, events[..|events| - 1]);
      NextKeepsOnce(RunSystem(s, events[..|events| - 1]), events[|events| - 1]);
    }
  }

  // ---------------------------------------------------------------- one producer at a time

  /** A caller between taking the lock of its key and deleting it. */
  predicate Inside(c: Caller) {
    c.key.Some? && !c.phase.Looking? && !c.phase.Missed? && !c.phase.Done?
  }

  predicate InsideWith(s: System, id: nat, key: Key) {
    id in s.callers && Inside(s.callers[id]) && KeyOf(s.callers[id]) == key
  }

  /** No two callers are at work on the same key. */
  ghost predicate Exclusive(s: System) {
    forall a, b :: a in s.callers && b in s.callers && a != b && Inside(s.callers[a]) && Inside(s.callers[b])
      ==> KeyOf(s.callers[a]) != KeyOf(s.callers[b])
  }

  /** A caller takes a lock that is free although somebody else is at work on its key. */
  ghost predicate EntersBesideAnother(s: System, e: Event) {
    && e.Lock? && In(s, e.id, Missed) && s.callers[e.id].key.Some? && KeyOf(s.callers[e.id]) !in s.locks
    && exists other :: other != e.id && InsideWith(s, other, KeyOf(s.callers[e.id]))
  }

  predicate IsOwnStep(e: Event) {
    !e.Arrive? && !e.Lock? && !e.Leave? && !e.Expire? && !e.Other?
  }

  /** A step of a caller that neither locks nor leaves moves that caller alone, and not across the lock. */
  lemma OwnStepMoves(s: System, e: Event)
    requires IsOwnStep(e)
    ensures Next(s, e).locks == s.locks
    ensures e.id in s.callers ==>
      && e.id in Next(s, e).callers
      && var phase := Next(s, e).callers[e.id].phase;
      && Next(s, e).callers == To(s, e.id, phase).callers
      && (Inside(s.callers[e.id].(phase := phase)) <==> Inside(s.callers[e.id]))
    ensures e.id !in s.callers ==> Next(s, e).callers == s.callers
  {
  }

  /** Nobody gets inside except by taking a lock. */
  lemma OnlyLockingEnters(s: System, e: Event)
    requires !e.Lock?
    ensures forall id :: id in Next(s, e).callers && Inside(Next(s, e).callers[id]) ==>
              id in s.callers && Inside(s.callers[id]) && KeyOf(s.callers[id]) == KeyOf(Next(s, e).callers[id])
    ensures Exclusive(s) ==> Exclusive(Next(s, e))
  {
    if IsOwnStep(e) {
      OwnStepMoves(s, e);
      hide Next;
    }
  }

  lemma LockingKeepsExclusiveIff(s: System, id: nat)
    requires Exclusive(s)
    ensures Exclusive(LockStep(s, id)) <==> !EntersBesideAnother(s, Lock(id))
  {
    var after := LockStep(s, id);
    if EntersBesideAnother(s, Lock(id)) {
      var other :| other != id && InsideWith(s, other, KeyOf(s.callers[id]));
      assert Inside(after.callers[id]) && Inside(after.callers[other]);
    } else if after.locks != s.locks {
      forall other | other in s.callers && other != id && Inside(s.callers[other])
        ensures KeyOf(s.callers[other]) != KeyOf(s.callers[id])
      {
        assert !InsideWith(s, other, KeyOf(s.callers[id]));
      }
    }
  }

  /** At most one caller a key stays at work in a step exactly when no caller enters beside another one. */
  lemma StaysExclusiveIff(s: System, e: Event)
    requires Exclusive(s)
    ensures Exclusive(Next(s, e)) <==> !EntersBesideAnother(s, e)
  {
    if e.Lock? {
      LockingKeepsExclusiveIff(s, e.id);
    } else {
      OnlyLockingEnters(s, e);
    }
  }

  ghost predicate NeverEntersBesideAnother(s: System, events: seq<Event>) {
    events != [] ==>
      && NeverEntersBesideAnother(s, events[..|events| - 1])
      && !EntersBesideAnother(RunSystem(s, events[..|events| - 1]), events[|events| - 1])
  }

  ghost predicate AlwaysExclusive(s: System, events: seq<Event>) {
    Exclusive(RunSystem(s, events)) && (events != [] ==> AlwaysExclusive(s, events[..|events| - 1]))
  }

  /** The same over all runs: at every moment at most one caller is at work on a key. */
  lemma {:induction false} ExclusiveIff(s: System, events: seq<Event>)
    requires Idle(s)
    ensures AlwaysExclusive(s, events) <==> NeverEntersBesideAnother(s, events)
  {
    if events != [] {
      var front, e := events[..|events| - 1], events[|events| - 1];
      ExclusiveIff(s, front);
      if AlwaysExclusive(s, front) {
        StaysExclusiveIff(RunSystem(s, front), e);
      }
    }
  }

  // Locks that outlive their holders are enough.

  /** Whoever is inside holds its lock. */
  ghost predicate HoldersLock(s: System) {
    forall id :: id in s.callers && Inside(s.callers[id]) ==> KeyOf(s.callers[id]) in s.locks
  }

  /** A lock expires while somebody is at work under it. */
  ghost predicate ExpiresUnderHolder(s: System, e: Event) {
    e.Expire? && exists id :: InsideWith(s, id, e.redisKey)
  }

  lemma HoldersKeepLocks(s: System, e: Event)
    requires HoldersLock(s) && Exclusive(s) && !ExpiresUnderHolder(s, e)
    ensures HoldersLock(Next(s, e)) && !EntersBesideAnother(s, e)
  {
    if IsOwnStep(e) {
      OwnStepMoves(s, e);
      hide Next;
    } else if e.Expire? {
      forall id | id in s.callers && Inside(s.callers[id]) ensures KeyOf(s.callers[id]) != e.redisKey {
        assert !InsideWith(s, id, e.redisKey);
      }
    }
  }

  ghost predicate LocksOutlive(s: System, events: seq<Event>) {
    events != [] ==>
      && LocksOutlive(s, events[..|events| - 1])
      && !ExpiresUnderHolder(RunSystem(s, events[..|events| - 1]), events[|events| - 1])
  }

  /** As long as no lock expires under its holder, at most one caller is at work on a key. */
  lemma {:induction false} ExclusiveIfLocksOutlive(s: System, events: seq<Event>)
    requires Idle(s) && LocksOutlive(s, events)
    ensures HoldersLock(RunSystem(s, events)) && AlwaysExclusive(s, events)
  {
    if events != [] {
      var front, e := events[..|events| - 1], events[|events| - 1];
      ExclusiveIfLocksOutlive(s, front);
      HoldersKeepLocks(RunSystem(s, front), e);
      StaysExclusiveIff(RunSystem(s, front), e);
    }
  }

  // ---------------------------------------------------------------- the wrapper alone is not enough

  /**
    When a stored operation is produced once more: exactly when a caller that found nothing at its
    lookup takes the lock, the result having been stored in between.
   */
  lemma ProducesAgainIff(s: System, e: Event, id: nat)
    requires id in s.callers && s.callers[id].key.Some? && !s.callers[id].phase.Producing?
    requires KeyOf(s.callers[id]) in s.results
    ensures In(Next(s, e), id, Producing) <==>
      e == Lock(id) && s.callers[id].phase.Missed? && KeyOf(s.callers[id]) !in s.locks
  {
  }

  predicate HasKey(s: System, id: nat, key: Key) {
    id in s.callers && s.callers[id].key.Some? && KeyOf(s.callers[id]) == key
  }

  /** It had looked before the result was there. */
  predicate LookedBefore(s: System, id: nat) {
    id in s.callers && !s.callers[id].phase.Looking?
  }

  ghost predicate NeverExpires(events: seq<Event>, key: Key) {
    forall i :: 0 <= i < |events| ==> events[i] != Expire(key)
  }

  lemma StoredStaysInAStep(s: System, e: Event, key: Key, id: nat)
    requires key in s.results && e != Expire(key)
    ensures key in Next(s, e).results
    ensures HasKey(Next(s, e), id, key) && !HasKey(s, id, key) ==> In(Next(s, e), id, Looking)
    ensures HasKey(s, id, key) && (In(s, id, Looking) || In(s, id, Done(Cached))) ==>
              HasKey(Next(s, e), id, key) && (In(Next(s, e), id, Looking) || In(Next(s, e), id, Done(Cached)))
    ensures HasKey(s, id, key) ==> HasKey(Next(s, e), id, key)
    ensures id in s.callers ==> id in Next(s, e).callers && (HasKey(Next(s, e), id, key) ==> HasKey(s, id, key))
  {
  }

  /**
    Once a result is stored, and until it expires, everybody who looks from then on is answered from the
    store; the operation is produced again only by callers that had looked before.
   */
  lemma {:induction false} LaterCallersAreCached(s: System, events: seq<Event>, key: Key, id: nat)
    requires key in s.results && NeverExpires(events, key) && !LookedBefore(s, id)
    ensures key in RunSystem(s, events).results
    ensures HasKey(RunSystem(s, events), id, key) ==>
              In(RunSystem(s, events), id, Looking) || In(RunSystem(s, events), id, Done(Cached))
  {
    if events != [] {
      var front, e := events[..|events| - 1], events[|events| - 1];
      assert NeverExpires(front, key) && e != Expire(key);
      LaterCallersAreCached(s, front, key, id);
      StoredStaysInAStep(RunSystem(s, front), e, key, id);
    }
  }

  lemma RunAppend(s: System, events: seq<Event>, e: Event)
    ensures RunSystem(s, events + [e]) == Next(RunSystem(s, events), e)
  {
  }

  /** Both requests have looked, the first has locked and is about to produce. */
  predicate BothLooked(s: System, sid: nat, user: nat, key: nat) {
    && s.callers == map[1 := Caller(START, sid, user, Some(key), Producing), 2 := Caller(START, sid, user, Some(key), Missed)]
    && s.results == {} && s.locks == {Key(START, user, sid, key)} && s.calls == []
  }

  lemma BothLook(s: System, sid: nat, user: nat, key: nat)
    requires Idle(s) && s.results == {} && s.locks == {}
    ensures
      var arrived := Next(Next(s, Arrive(1, START, sid, user, Some(key))), Arrive(2, START, sid, user, Some(key)));
      && BothLooked(Next(Next(Next(arrived, Get(1)), Get(2)), Lock(1)), sid, user, key)
      && Next(Next(Next(arrived, Get(1)), Get(2)), Lock(1)).db == s.db
  {
  }

  /** The first request finds the session started already, stores its reply and is about to leave. */
  lemma FirstStores(s: System, sid: nat, user: nat, key: nat)
    requires BothLooked(s, sid, user, key)
    requires Exists(s.db, sid) && s.db.sessions[sid].user == user && s.db.sessions[sid].status == CHARGING
    ensures
      var stored := Next(Next(s, Prepare(1, 0)), Store(1, true));
      && stored.callers == s.callers[1 := s.callers[1].(phase := Leaving(Replied))]
      && stored.results == {Key(START, user, sid, key)} && stored.locks == s.locks && stored.calls == []
  {
  }

  lemma SecondRunsAgain(s: System, sid: nat, user: nat, key: nat)
    requires BothLooked(s, sid, user, key)
    requires Exists(s.db, sid) && s.db.sessions[sid].user == user && s.db.sessions[sid].status == CHARGING
    ensures RanAgain(Next(Next(Next(Next(s, Prepare(1, 0)), Store(1, true)), Leave(1)), Lock(2)), sid, user, key)
  {
    FirstStores(s, sid, user, key);
    LockIsFree(Next(Next(s, Prepare(1, 0)), Store(1, true)), s.callers, sid, user, key);
  }

  lemma LockIsFree(s: System, callers: map<nat, Caller>, sid: nat, user: nat, key: nat)
    requires callers == map[1 := Caller(START, sid, user, Some(key), Producing), 2 := Caller(START, sid, user, Some(key), Missed)]
    requires s.callers == callers[1 := callers[1].(phase := Leaving(Replied))]
    requires s.results == {Key(START, user, sid, key)} && s.locks == {Key(START, user, sid, key)} && s.calls == []
    ensures RanAgain(Next(Next(s, Leave(1)), Lock(2)), sid, user, key)
  {
  }

  /** The first request is answered and stored, the second is producing the same result once more. */
  predicate RanAgain(s: System, sid: nat, user: nat, key: nat) {
    && In(s, 1, Done(Replied)) && In(s, 2, Producing)
    && Key(START, user, sid, key) in s.results
    && s.calls == []
  }

  /** The run of nine steps in which a stored operation is produced again. */
  function Overtaking(sid: nat, user: nat, key: nat): seq<Event> {
    [Arrive(1, START, sid, user, Some(key)), Arrive(2, START, sid, user, Some(key)), Get(1), Get(2), Lock(1),
     Prepare(1, 0), Store(1, true), Leave(1), Lock(2)]
  }

  lemma {:induction false} RunOfConcatenation(s: System, first: seq<Event>, second: seq<Event>)
    ensures RunSystem(s, first + second) == RunSystem(RunSystem(s, first), second)
    decreases |second|
  {
    if second == [] {
      assert first + second == first;
    } else {
      var n := |second| - 1;
      RunOfConcatenation(s, first, second[..n]);
      assert (first + second)[..|first + second| - 1] == first + second[..n];
    }
  }

  lemma RunOfFour(s: System, a: Event, b: Event, c: Event, d: Event)
    ensures RunSystem(s, [a, b, c, d]) == Next(Next(Next(Next(s, a), b), c), d)
  {
    RunAppend(s, [], a);
    RunAppend(s, [a], b);
    RunAppend(s, [a, b], c);
    RunAppend(s, [a, b, c], d);
    assert [] + [a] == [a] && [a] + [b] == [a, b] && [a, b] + [c] == [a, b, c] && [a, b, c] + [d] == [a, b, c, d];
  }

  lemma FirstFive(s: System, run: seq<Event>)
    requires |run| == 5
    ensures RunSystem(s, run) == Next(Next(Next(Next(Next(s, run[0]), run[1]), run[2]), run[3]), run[4])
  {
    assert run == [run[0], run[1], run[2], run[3]] + [run[4]];
    RunOfFour(s, run[0], run[1], run[2], run[3]);
    RunAppend(s, [run[0], run[1], run[2], run[3]], run[4]);
  }

  lemma LastFour(s: System, run: seq<Event>)
    requires |run| == 9
    ensures
      var looked := RunSystem(s, run[..5]);
      RunSystem(s, run) == Next(Next(Next(Next(looked, run[5]), run[6]), run[7]), run[8])
  {
    var last := [run[5], run[6], run[7], run[8]];
    RunOfFour(RunSystem(s, run[..5]), run[5], run[6], run[7], run[8]);
    RunOfConcatenation(s, run[..5], last);
    assert run[..5] + last == run;
  }

  /**
    The wrapper alone does not make an operation run once: two requests with the same key look before
    either has locked, the first runs to its end, and the second then takes the freed lock and runs the
    producer again although the result is stored.
   */
  lemma ProducerRunsTwice(s: System, sid: nat, user: nat, key: nat)
    requires Idle(s) && s.results == {} && s.locks == {}
    requires Exists(s.db, sid) && s.db.sessions[sid].user == user && s.db.sessions[sid].status == CHARGING
    ensures RanAgain(RunSystem(s, Overtaking(sid, user, key)), sid, user, key)
  {
    var run := Overtaking(sid, user, key);
    LastFour(s, run);
    FirstFive(s, run[..5]);
    BothLook(s, sid, user, key);
    var arrived := Next(Next(s, Arrive(1, START, sid, user, Some(key))), Arrive(2, START, sid, user, Some(key)));
    SecondRunsAgain(Next(Next(Next(arrived, Get(1)), Get(2)), Lock(1)), sid, user, key);
  }

  /** The run of seven steps in which a lock expires and a second request enters beside the first one. */
  function Expiring(sid: nat, user: nat, key: nat): seq<Event> {
    [Arrive(1, START, sid, user, Some(key)), Arrive(2, START, sid, user, Some(key)), Get(1), Get(2), Lock(1),
     Expire(Key(START, user, sid, key)), Lock(2)]
  }

  /** Both requests are about to run the producer of one key. */
  lemma TwoProduceAtOnce(s: System, sid: nat, user: nat, key: nat)
    requires Idle(s) && s.results == {} && s.locks == {}
    ensures
      var after := RunSystem(s, Expiring(sid, user, key));
      && In(after, 1, Producing) && In(after, 2, Producing)
      && InsideWith(after, 1, Key(START, user, sid, key)) && InsideWith(after, 2, Key(START, user, sid, key))
      && !Exclusive(after)
  {
    var run := Expiring(sid, user, key);
    var looked := RunSystem(s, run[..5]);
    FirstFive(s, run[..5]);
    BothLook(s, sid, user, key);
    RunAppend(s, run[..5], run[5]);
    RunAppend(s, run[..6], run[6]);
    assert run[..5] + [run[5]] == run[..6] && run[..6] + [run[6]] == run;
    SecondEnters(looked, sid, user, key);
  }

  lemma SecondEnters(s: System, sid: nat, user: nat, key: nat)
    requires BothLooked(s, sid, user, key)
    ensures
      var after := Next(Next(s, Expire(Key(START, user, sid, key))), Lock(2));
      && In(after, 1, Producing) && In(after, 2, Producing)
      && InsideWith(after, 1, Key(START, user, sid, key)) && InsideWith(after, 2, Key(START, user, sid, key))
      && !Exclusive(after)
  {
  }
}
