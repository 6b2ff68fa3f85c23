/**
  What the callers of `start` and `stop` are answered: whole requests from arrival to reply with no
  other step in between, and, over every run, which callers ever fail a session.
 */
module GatewayAnswers {
  import opened Common
  import opened SessionLifecycle
  import opened Charging
  import opened ChargingEffects
  import opened GatewayCalls

  /** The system with one caller in a given phase. */
  function With(s: System, id: nat, c: Caller, phase: Phase): System {
    s.(callers := s.callers[id := c.(phase := phase)])
  }

  lemma Moves(s: System, id: nat, c: Caller, from: Phase, to: Phase)
    ensures To(With(s, id, c, from), id, to) == With(s, id, c, to)
  {
  }

  function LockOf(c: Caller): set<Key> {
    if c.key.Some? then {KeyOf(c)} else {}
  }

  /** A new caller whose key, if it sends one, is neither stored nor locked. */
  predicate Arrives(s: System, id: nat, c: Caller) {
    && id !in s.callers && c.phase == Producing
    && (c.key.Some? ==> KeyOf(c) !in s.results && KeyOf(c) !in s.locks)
  }

  /** From the arrival of a request to its producer. */
  function Request(id: nat, c: Caller): seq<Event> {
    if c.key.None? then [Arrive(id, c.op, c.sid, c.user, c.key)]
    else [Arrive(id, c.op, c.sid, c.user, c.key), Get(id), Lock(id)]
  }

  /** From the end of the producer to the reply. */
  function Reply(id: nat, c: Caller): seq<Event> {
    if c.key.None? then [Store(id, true)] else [Store(id, true), Leave(id)]
  }

  function Failure(id: nat, now: int): seq<Event> {
    [FailSession(id, now), Leave(id)]
  }

  /** At the gateway and back; `start` registers the connector first. */
  function AtGateway(id: nat, op: Op, answer: Option<int>, now: int): seq<Event> {
    if op == START then [Prepare(id, now), Register(id, true), CallGateway(id), Answer(id, answer)]
    else [Prepare(id, now), CallGateway(id), Answer(id, answer)]
  }

  lemma EmptyRun(s: System)
    ensures RunSystem(s, []) == s
  {
  }

  lemma RunOfTwo(s: System, a: Event, b: Event)
    ensures RunSystem(s, [a, b]) == Next(Next(s, a), b)
  {
    hide RunSystem, Next;
    assert [] + [a] == [a] && [a] + [b] == [a, b];
    RunAppend(s, [], a);
    RunAppend(s, [a], b);
    EmptyRun(s);
  }

  lemma RunOfThree(s: System, a: Event, b: Event, c: Event)
    ensures RunSystem(s, [a, b, c]) == Next(Next(Next(s, a), b), c)
  {
    hide RunSystem, Next;
    assert [a, b] + [c] == [a, b, c];
    RunOfTwo(s, a, b);
    RunAppend(s, [a, b], c);
  }

  lemma RequestEnters(s: System, id: nat, c: Caller)
    requires Arrives(s, id, c)
    ensures RunSystem(s, Request(id, c)) == With(s.(locks := s.locks + LockOf(c)), id, c, Producing)
  {
    var arrived := Next(s, Request(id, c)[0]);
    if c.key.None? {
      assert Request(id, c)[..0] == [];
      assert s.locks + LockOf(c) == s.locks;
    } else {
      RunOfThree(s, Arrive(id, c.op, c.sid, c.user, c.key), Get(id), Lock(id));
      assert arrived == With(s, id, c, Looking);
      Moves(s, id, c, Looking, Missed);
      Moves(s, id, c, Missed, Producing);
      assert KeyOf(c.(phase := Looking)) == KeyOf(c) && KeyOf(c.(phase := Missed)) == KeyOf(c);
    }
  }

  lemma ReplyLeaves(s: System, id: nat, c: Caller)
    ensures RunSystem(With(s, id, c, Storing), Reply(id, c))
         == With(s.(results := s.results + LockOf(c), locks := s.locks - LockOf(c)), id, c, Done(Replied))
  {
    var storing := With(s, id, c, Storing);
    if c.key.None? {
      assert Reply(id, c)[..0] == [];
      Moves(s, id, c, Storing, Done(Replied));
      assert s.results + LockOf(c) == s.results && s.locks - LockOf(c) == s.locks;
    } else {
      RunOfTwo(storing, Store(id, true), Leave(id));
      assert KeyOf(c.(phase := Storing)) == KeyOf(c) && KeyOf(c.(phase := Leaving(Replied))) == KeyOf(c);
      Moves(s, id, c, Storing, Leaving(Replied));
      Moves(s, id, c, Leaving(Replied), Done(Replied));
    }
  }

  /** A reply that cannot be stored under its key becomes an error; the tables stay as they are. */
  lemma UnstoredReplyFails(s: System, id: nat, c: Caller)
    requires c.key.Some?
    ensures RunSystem(With(s, id, c, Storing), [Store(id, false), Leave(id)])
         == With(s.(locks := s.locks - LockOf(c)), id, c, Done(Failed))
  {
    RunOfTwo(With(s, id, c, Storing), Store(id, false), Leave(id));
    Moves(s, id, c, Storing, Leaving(Failed));
    Moves(s, id, c, Leaving(Failed), Done(Failed));
    assert KeyOf(c.(phase := Leaving(Failed))) == KeyOf(c);
  }

  lemma FailureLeaves(s: System, id: nat, c: Caller, now: int)
    ensures RunSystem(With(s, id, c, Failing), Failure(id, now))
         == With(s.(db := Step(s.db, Fail(c.sid, false, now)), locks := s.locks - LockOf(c)), id, c, Done(Failed))
  {
    RunOfTwo(With(s, id, c, Failing), FailSession(id, now), Leave(id));
    Moves(s, id, c, Failing, Leaving(Failed));
    Moves(s, id, c, Leaving(Failed), Done(Failed));
    assert c.key.Some? ==> KeyOf(c.(phase := Leaving(Failed))) == KeyOf(c);
    assert c.key.None? ==> s.locks - LockOf(c) == s.locks;
  }

  function Entering(c: Caller, now: int): Action {
    if c.op == START then PrepareStart(c.sid, c.user, now) else PrepareStop(c.sid, c.user, now)
  }

  /** The first transaction of an operation goes through and the gateway is to be called. */
  lemma PrepareMoves(s: System, id: nat, c: Caller, now: int)
    requires ChecksHold(s.db.sessions) && Acts(s.db, Entering(c, now))
    ensures Next(With(s, id, c, Producing), Prepare(id, now))
         == With(s.(db := Step(s.db, Entering(c, now))), id, c, if c.op == START then Registering else Calling)
  {
    CommitsIff(s.db, Entering(c, now));
    Moves(s.(db := Step(s.db, Entering(c, now))), id, c, Producing, if c.op == START then Registering else Calling);
    hide Acts, Effect, Step, Tx, ChecksHold;
  }

  lemma GatewayMoves(s: System, id: nat, c: Caller, answer: Option<int>)
    ensures
      var called := s.(calls := s.calls + [Call(c.op, c.sid)]);
      Next(Next(With(s, id, c, Calling), CallGateway(id)), Answer(id, answer))
        == With(called, id, c, if answer.Some? then Committing(answer.value) else Failing)
  {
    var called := s.(calls := s.calls + [Call(c.op, c.sid)]);
    Moves(called, id, c, Calling, Waiting);
    Moves(called, id, c, Waiting, if answer.Some? then Committing(answer.value) else Failing);
  }

  lemma CallIsAnswered(s: System, id: nat, c: Caller, answer: Option<int>, now: int)
    requires ChecksHold(s.db.sessions) && Acts(s.db, Entering(c, now))
    ensures RunSystem(With(s, id, c, Producing), AtGateway(id, c.op, answer, now))
         == With(s.(db := Step(s.db, Entering(c, now)), calls := s.calls + [Call(c.op, c.sid)]), id, c,
                 if answer.Some? then Committing(answer.value) else Failing)
  {
    var prepared := s.(db := Step(s.db, Entering(c, now)));
    PrepareMoves(s, id, c, now);
    GatewayMoves(prepared, id, c, answer);
    if c.op == START {
      RunOfFour(With(s, id, c, Producing), Prepare(id, now), Register(id, true), CallGateway(id), Answer(id, answer));
      Moves(prepared, id, c, Registering, Calling);
      assert Next(With(prepared, id, c, Registering), Register(id, true)) == With(prepared, id, c, Calling);
    } else {
      RunOfThree(With(s, id, c, Producing), Prepare(id, now), CallGateway(id), Answer(id, answer));
    }
    hide Next, Acts, Step, Entering, RunSystem;
  }

  lemma CommitMoves(s: System, id: nat, c: Caller, meterWh: int, now: int, settled: bool)
    requires Tx(s.db, CommitAction(c, meterWh, now)).Some?
    ensures Next(With(s, id, c, Committing(meterWh)), Commit(id, now, settled))
         == With(s.(db := Step(s.db, CommitAction(c, meterWh, now))), id, c, if settled then Storing else Failing)
  {
    Moves(s.(db := Step(s.db, CommitAction(c, meterWh, now))), id, c, Committing(meterWh), if settled then Storing else Failing);
    hide Tx, Step;
  }

  /** A request that the gateway answers, up to its commit. */
  function Answered(id: nat, c: Caller, meterWh: int, prepared: int, now: int, settled: bool): seq<Event> {
    Request(id, c) + AtGateway(id, c.op, Some(meterWh), prepared) + [Commit(id, now, settled)]
  }

  lemma AnsweredRun(s: System, id: nat, c: Caller, meterWh: int, t: int, now: int, settled: bool)
    requires Arrives(s, id, c) && ChecksHold(s.db.sessions) && Acts(s.db, Entering(c, t))
    requires Tx(Step(s.db, Entering(c, t)), CommitAction(c, meterWh, now)).Some?
    ensures RunSystem(s, Answered(id, c, meterWh, t, now, settled))
         == With(s.(db := Step(Step(s.db, Entering(c, t)), CommitAction(c, meterWh, now)),
                    calls := s.calls + [Call(c.op, c.sid)], locks := s.locks + LockOf(c)),
                 id, c, if settled then Storing else Failing)
  {
    var called := Request(id, c) + AtGateway(id, c.op, Some(meterWh), t);
    var entered := s.(locks := s.locks + LockOf(c));
    RequestEnters(s, id, c);
    CallIsAnswered(entered, id, c, Some(meterWh), t);
    CommitMoves(entered.(db := Step(s.db, Entering(c, t)), calls := s.calls + [Call(c.op, c.sid)]), id, c, meterWh, now, settled);
    RunOfConcatenation(s, Request(id, c), AtGateway(id, c.op, Some(meterWh), t));
    RunAppend(s, called, Commit(id, now, settled));
    hide RunSystem, Next, Tx, Step, Acts, Entering, CommitAction, Request, AtGateway;
  }

  /** The operation may begin: its owner asks, the session is in the right status, the connector is offered. */
  ghost predicate MayBegin(db: Db, c: Caller) {
    && ChecksHold(db.sessions) && Exists(db, c.sid) && SessionInv(db.sessions[c.sid])
    && var session := db.sessions[c.sid];
    && session.user == c.user && session.user in db.users && session.connector in db.connectors
    && (c.op == START ==>
          && session.status == AUTHORIZED
          && (db.connectors[session.connector].status == AVAILABLE || db.connectors[session.connector].status == RESERVED))
    && (c.op == STOP ==> session.status == CHARGING)
  }

  /** The two audit entries of an operation, each at the instant of its transaction. */
  function Stamps(db: Db, c: Caller, t: int, now: int): seq<Audit>
    requires Exists(db, c.sid)
  {
    var version := db.sessions[c.sid].version;
    if c.op == START then
      [StateChanged(c.sid, Mark(AUTHORIZED, version), Mark(STARTING, version + 1), t),
       StateChanged(c.sid, Mark(STARTING, version + 1), Mark(CHARGING, version + 2), now)]
    else
      [StateChanged(c.sid, Mark(CHARGING, version), Mark(STOPPING, version + 1), t),
       StateChanged(c.sid, Mark(STOPPING, version + 1), Mark(COMPLETED, version + 2), now)]
  }

  /** The two transactions of a start leave the session charging from the meter the gateway answered. */
  lemma StartCommits(db: Db, c: Caller, meterWh: int, t: int, now: int)
    requires MayBegin(db, c) && c.op == START
    ensures Acts(db, Entering(c, t)) && Tx(Step(db, Entering(c, t)), CommitAction(c, meterWh, now)).Some?
    ensures
      var after := Step(Step(db, Entering(c, t)), CommitAction(c, meterWh, now));
      && Exists(after, c.sid) && after.sessions[c.sid].connector == db.sessions[c.sid].connector
      && after.sessions[c.sid].status == CHARGING && after.sessions[c.sid].meterStartWh == Some(meterWh)
      && after.sessions[c.sid].connector in after.connectors
      && after.connectors[after.sessions[c.sid].connector].status == OCCUPIED
      && SessionInv(after.sessions[c.sid]) && ChecksHold(after.sessions)
      && after.audit == db.audit + Stamps(db, c, t, now)
  {
    var starting := Step(db, Entering(c, t));
    CommitsIff(db, Entering(c, t));
    StepKeepsChecks(db, Entering(c, t));
    StepKeepsMeters(db, Entering(c, t), c.sid);
    CommitsIff(starting, CommitAction(c, meterWh, now));
    StepKeepsChecks(starting, CommitAction(c, meterWh, now));
    StepKeepsMeters(starting, CommitAction(c, meterWh, now), c.sid);
    hide Step, Tx;
  }

  /** The two transactions of a stop complete the session with the meter the gateway answered, and bill it. */
  lemma StopCommits(db: Db, c: Caller, meterWh: int, t: int, now: int)
    requires MayBegin(db, c) && c.op == STOP
    ensures Acts(db, Entering(c, t)) && Tx(Step(db, Entering(c, t)), CommitAction(c, meterWh, now)).Some?
    ensures
      var after := Step(Step(db, Entering(c, t)), CommitAction(c, meterWh, now));
      && Exists(after, c.sid) && after.sessions[c.sid].connector == db.sessions[c.sid].connector
      && after.sessions[c.sid].status == COMPLETED && Bills(db.sessions[c.sid], after.sessions[c.sid], meterWh)
      && after.sessions[c.sid].connector in after.connectors
      && after.connectors[after.sessions[c.sid].connector].status == AVAILABLE
      && after.users == db.users[c.user := db.users[c.user] + after.sessions[c.sid].energyWh]
      && after.audit == db.audit + Stamps(db, c, t, now)
  {
    var stopping := Step(db, Entering(c, t));
    CommitsIff(db, Entering(c, t));
    StepKeepsChecks(db, Entering(c, t));
    CommitsIff(stopping, CommitAction(c, meterWh, now));
    hide Step, Tx;
  }

  /** Undisturbed, a start whose gateway answers is replied to with the session charging from that meter. */
  lemma StartIsReplied(s: System, id: nat, c: Caller, meterWh: int, t: int, now: int)
    requires Arrives(s, id, c) && MayBegin(s.db, c) && c.op == START
    ensures
      var after := RunSystem(s, Answered(id, c, meterWh, t, now, true) + Reply(id, c));
      && In(after, id, Done(Replied)) && after.calls == s.calls + [Call(START, c.sid)]
      && Exists(after.db, c.sid) && after.db.sessions[c.sid].connector in after.db.connectors
      && after.db.sessions[c.sid].status == CHARGING && after.db.sessions[c.sid].meterStartWh == Some(meterWh)
      && after.db.connectors[after.db.sessions[c.sid].connector].status == OCCUPIED
      && after.db.audit == s.db.audit + Stamps(s.db, c, t, now)
      && after.locks == s.locks && (c.key.Some? ==> KeyOf(c) in after.results)
  {
    StartCommits(s.db, c, meterWh, t, now);
    AnsweredRun(s, id, c, meterWh, t, now, true);
    RunOfConcatenation(s, Answered(id, c, meterWh, t, now, true), Reply(id, c));
    var db := Step(Step(s.db, Entering(c, t)), CommitAction(c, meterWh, now));
    ReplyLeaves(s.(db := db, calls := s.calls + [Call(c.op, c.sid)], locks := s.locks + LockOf(c)), id, c);
    assert s.locks + LockOf(c) - LockOf(c) == s.locks;
    hide RunSystem, Step, Answered, Reply, MayBegin, Acts, Tx;
  }

  /** Undisturbed, a stop whose gateway answers is replied to with the session completed and billed. */
  lemma StopIsReplied(s: System, id: nat, c: Caller, meterWh: int, t: int, now: int)
    requires Arrives(s, id, c) && MayBegin(s.db, c) && c.op == STOP
    ensures
      var after := RunSystem(s, Answered(id, c, meterWh, t, now, true) + Reply(id, c));
      && In(after, id, Done(Replied)) && after.calls == s.calls + [Call(STOP, c.sid)]
      && Exists(after.db, c.sid) && after.db.sessions[c.sid].connector in after.db.connectors
      && after.db.sessions[c.sid].status == COMPLETED
      && Bills(s.db.sessions[c.sid], after.db.sessions[c.sid], meterWh)
      && after.db.connectors[after.db.sessions[c.sid].connector].status == AVAILABLE
      && after.db.users == s.db.users[c.user := s.db.users[c.user] + after.db.sessions[c.sid].energyWh]
      && after.db.audit == s.db.audit + Stamps(s.db, c, t, now)
      && after.locks == s.locks && (c.key.Some? ==> KeyOf(c) in after.results)
  {
    StopCommits(s.db, c, meterWh, t, now);
    AnsweredRun(s, id, c, meterWh, t, now, true);
    RunOfConcatenation(s, Answered(id, c, meterWh, t, now, true), Reply(id, c));
    var db := Step(Step(s.db, Entering(c, t)), CommitAction(c, meterWh, now));
    ReplyLeaves(s.(db := db, calls := s.calls + [Call(c.op, c.sid)], locks := s.locks + LockOf(c)), id, c);
    assert s.locks + LockOf(c) - LockOf(c) == s.locks;
    hide RunSystem, Step, Answered, Reply, MayBegin, Acts, Tx;
  }

  // ---------------------------------------------------------------- requests that fail

  /** A request whose registration is refused, or whose gateway call fails. */
  function Unanswered(id: nat, c: Caller, refused: bool, t: int): seq<Event> {
    Request(id, c) + if refused then [Prepare(id, t), Register(id, false)] else AtGateway(id, c.op, None, t)
  }

  function Calls(s: System, c: Caller, refused: bool): seq<Call> {
    if refused then s.calls else s.calls + [Call(c.op, c.sid)]
  }

  lemma RefusedRun(s: System, id: nat, c: Caller, t: int)
    requires ChecksHold(s.db.sessions) && Acts(s.db, Entering(c, t)) && c.op == START
    ensures RunSystem(With(s, id, c, Producing), [Prepare(id, t), Register(id, false)])
         == With(s.(db := Step(s.db, Entering(c, t))), id, c, Failing)
  {
    var prepared := s.(db := Step(s.db, Entering(c, t)));
    RunOfTwo(With(s, id, c, Producing), Prepare(id, t), Register(id, false));
    PrepareMoves(s, id, c, t);
    Moves(prepared, id, c, Registering, Failing);
    assert Next(With(prepared, id, c, Registering), Register(id, false)) == With(prepared, id, c, Failing);
    hide RunSystem, Next, Step, Acts, Entering;
  }

  lemma UnansweredRun(s: System, id: nat, c: Caller, refused: bool, t: int)
    requires Arrives(s, id, c) && ChecksHold(s.db.sessions) && Acts(s.db, Entering(c, t)) && (refused ==> c.op == START)
    ensures RunSystem(s, Unanswered(id, c, refused, t))
         == With(s.(db := Step(s.db, Entering(c, t)), calls := Calls(s, c, refused), locks := s.locks + LockOf(c)), id, c, Failing)
  {
    var entered := s.(locks := s.locks + LockOf(c));
    RequestEnters(s, id, c);
    if refused {
      RefusedRun(entered, id, c, t);
      RunOfConcatenation(s, Request(id, c), [Prepare(id, t), Register(id, false)]);
    } else {
      CallIsAnswered(entered, id, c, None, t);
      RunOfConcatenation(s, Request(id, c), AtGateway(id, c.op, None, t));
    }
    hide RunSystem, Next, Step, Acts, Entering, Request, AtGateway;
  }

  /** What failing a session after its first transaction leaves. */
  lemma FailingFrees(db: Db, c: Caller, t: int, now: int)
    requires MayBegin(db, c)
    ensures Acts(db, Entering(c, t))
    ensures
      var after := Step(Step(db, Entering(c, t)), Fail(c.sid, false, now));
      && Exists(after, c.sid) && after.sessions[c.sid].status == FAILED
      && after.sessions[c.sid].connector == db.sessions[c.sid].connector
      && after.sessions[c.sid].connector in after.connectors
      && after.connectors[after.sessions[c.sid].connector].status == AVAILABLE
      && after.users == db.users
  {
    CommitsIff(db, Entering(c, t));
    StepKeepsChecks(db, Entering(c, t));
    CommitsIff(Step(db, Entering(c, t)), Fail(c.sid, false, now));
    hide Step, Tx;
  }

  /** Undisturbed, a request without an answer of the gateway fails, and its session and nothing else with it. */
  lemma UnansweredFails(s: System, id: nat, c: Caller, refused: bool, t: int, now: int)
    requires Arrives(s, id, c) && MayBegin(s.db, c) && (refused ==> c.op == START)
    ensures
      var after := RunSystem(s, Unanswered(id, c, refused, t) + Failure(id, now));
      && In(after, id, Done(Failed)) && after.calls == (if refused then s.calls else s.calls + [Call(c.op, c.sid)])
      && Exists(after.db, c.sid) && after.db.sessions[c.sid].connector in after.db.connectors
      && after.db.sessions[c.sid].status == FAILED && after.db.users == s.db.users
      && after.db.connectors[after.db.sessions[c.sid].connector].status == AVAILABLE
      && after.locks == s.locks && after.results == s.results
  {
    FailingFrees(s.db, c, t, now);
    UnansweredRun(s, id, c, refused, t);
    RunOfConcatenation(s, Unanswered(id, c, refused, t), Failure(id, now));
    FailureLeaves(s.(db := Step(s.db, Entering(c, t)), calls := Calls(s, c, refused), locks := s.locks + LockOf(c)), id, c, now);
    assert s.locks + LockOf(c) - LockOf(c) == s.locks;
    hide RunSystem, Step, Unanswered, Failure, MayBegin, Acts, Entering;
  }

  /** A start that committed is failed after all; a stop stays completed and billed. */
  ghost predicate EndsLate(db: Db, after: Db, c: Caller, meterWh: int) {
    && Exists(db, c.sid) && Exists(after, c.sid) && c.user in db.users && after.sessions[c.sid].connector in after.connectors
    && after.sessions[c.sid].status == (if c.op == START then FAILED else COMPLETED)
    && after.connectors[after.sessions[c.sid].connector].status == AVAILABLE
    && (c.op == STOP ==>
          && Bills(db.sessions[c.sid], after.sessions[c.sid], meterWh)
          && after.users == db.users[c.user := db.users[c.user] + after.sessions[c.sid].energyWh])
  }

  /** A charging session fails for the error behind its commit, a completed one stays completed. */
  lemma LateFailure(db: Db, c: Caller, meterWh: int, t: int, now: int, later: int)
    requires MayBegin(db, c)
    ensures Acts(db, Entering(c, t)) && Tx(Step(db, Entering(c, t)), CommitAction(c, meterWh, now)).Some?
    ensures
      var committed := Step(Step(db, Entering(c, t)), CommitAction(c, meterWh, now));
      EndsLate(db, Step(committed, Fail(c.sid, false, later)), c, meterWh)
  {
    if c.op == START {
      StartCommits(db, c, meterWh, t, now);
    } else {
      StopCommits(db, c, meterWh, t, now);
    }
    var committed := Step(Step(db, Entering(c, t)), CommitAction(c, meterWh, now));
    StepKeepsChecks(db, Entering(c, t));
    StepKeepsChecks(Step(db, Entering(c, t)), CommitAction(c, meterWh, now));
    CommitsIff(committed, Fail(c.sid, false, later));
    hide Step, Tx, Bills, Entering, CommitAction, ChecksHold, MayBegin;
  }

  /**
    A request whose transaction commits and that throws only after that fails all the same: a start takes
    the charging session down with it, a stop leaves it completed and billed.
   */
  lemma UnsettledFails(s: System, id: nat, c: Caller, meterWh: int, t: int, now: int, later: int)
    requires Arrives(s, id, c) && MayBegin(s.db, c)
    ensures
      var after := RunSystem(s, Answered(id, c, meterWh, t, now, false) + Failure(id, later));
      && In(after, id, Done(Failed)) && after.locks == s.locks && after.results == s.results
      && EndsLate(s.db, after.db, c, meterWh)
  {
    var db := Step(Step(s.db, Entering(c, t)), CommitAction(c, meterWh, now));
    LateFailure(s.db, c, meterWh, t, now, later);
    AnsweredRun(s, id, c, meterWh, t, now, false);
    RunOfConcatenation(s, Answered(id, c, meterWh, t, now, false), Failure(id, later));
    FailureLeaves(s.(db := db, calls := s.calls + [Call(c.op, c.sid)], locks := s.locks + LockOf(c)), id, c, later);
    assert s.locks + LockOf(c) - LockOf(c) == s.locks;
    hide RunSystem, Step, Answered, Failure, Entering, CommitAction, EndsLate, MayBegin, Acts, Tx;
  }

  // ---------------------------------------------------------------- requests that call nobody

  /** Undisturbed, a repeat on a session that has begun already is replied to and changes nothing. */
  lemma RepeatIsReplied(s: System, id: nat, c: Caller, t: int)
    requires Arrives(s, id, c) && ChecksHold(s.db.sessions)
    requires !Acts(s.db, Entering(c, t)) && Repeats(s.db, Entering(c, t))
    ensures RunSystem(s, Request(id, c) + [Prepare(id, t)] + Reply(id, c))
         == With(s.(results := s.results + LockOf(c)), id, c, Done(Replied))
  {
    var entered := s.(locks := s.locks + LockOf(c));
    RequestEnters(s, id, c);
    CommitsIff(s.db, Entering(c, t));
    RunAppend(s, Request(id, c), Prepare(id, t));
    Moves(entered, id, c, Producing, Storing);
    RunOfConcatenation(s, Request(id, c) + [Prepare(id, t)], Reply(id, c));
    ReplyLeaves(entered, id, c);
    assert s.locks + LockOf(c) - LockOf(c) == s.locks;
    hide RunSystem, Acts, Repeats, Tx, Step, Effect;
  }

  /** Undisturbed, a request that may neither begin nor repeat fails and changes nothing. */
  lemma OthersAreRefused(s: System, id: nat, c: Caller, t: int)
    requires Arrives(s, id, c) && ChecksHold(s.db.sessions)
    requires !Acts(s.db, Entering(c, t)) && !Repeats(s.db, Entering(c, t))
    ensures RunSystem(s, Request(id, c) + [Prepare(id, t)] + [Leave(id)]) == With(s, id, c, Done(Failed))
  {
    var entered := s.(locks := s.locks + LockOf(c));
    RequestEnters(s, id, c);
    CommitsIff(s.db, Entering(c, t));
    RunAppend(s, Request(id, c), Prepare(id, t));
    Moves(entered, id, c, Producing, Leaving(Failed));
    RunAppend(s, Request(id, c) + [Prepare(id, t)], Leave(id));
    LeavingLeaves(s, id, c, Failed);
    hide RunSystem, Acts, Repeats, Tx, Step, Effect, Request;
  }

  lemma LeavingLeaves(s: System, id: nat, c: Caller, outcome: GatewayCalls.Outcome)
    requires c.key.Some? ==> KeyOf(c) !in s.locks
    ensures Next(With(s.(locks := s.locks + LockOf(c)), id, c, Leaving(outcome)), Leave(id)) == With(s, id, c, Done(outcome))
  {
    Moves(s.(locks := s.locks + LockOf(c)), id, c, Leaving(outcome), Done(outcome));
    assert c.key.Some? ==> KeyOf(c.(phase := Leaving(outcome))) == KeyOf(c);
    assert s.locks + LockOf(c) - LockOf(c) == s.locks;
    assert c.key.None? ==> s.locks + LockOf(c) == s.locks;
  }

  /** A stored key is answered from the store, a locked one is refused; neither reaches the tables. */
  lemma KnownKeysAreAnswered(s: System, id: nat, c: Caller)
    requires id !in s.callers && c.key.Some?
    ensures KeyOf(c) in s.results ==>
      RunSystem(s, Request(id, c)[..2]) == With(s, id, c, Done(Cached))
    ensures KeyOf(c) !in s.results && KeyOf(c) in s.locks ==>
      RunSystem(s, Request(id, c)) == With(s, id, c, Done(InProgress))
  {
    var arrive := Arrive(id, c.op, c.sid, c.user, c.key);
    RunOfTwo(s, arrive, Get(id));
    RunOfThree(s, arrive, Get(id), Lock(id));
    assert Request(id, c)[..2] == [arrive, Get(id)];
    assert Next(s, arrive) == With(s, id, c, Looking);
    assert KeyOf(c.(phase := Looking)) == KeyOf(c) && KeyOf(c.(phase := Missed)) == KeyOf(c);
    Moves(s, id, c, Looking, Done(Cached));
    Moves(s, id, c, Looking, Missed);
    Moves(s, id, c, Missed, Done(InProgress));
  }

  /** What expires is forgotten, and nothing else: the next request with that key runs its producer. */
  lemma ExpiredKeysAreNewAgain(s: System, id: nat, c: Caller)
    requires id !in s.callers && c.key.Some? && c.phase == Producing
    ensures
      var after := Next(s, Expire(KeyOf(c)));
      && Arrives(after, id, c) && after == s.(results := after.results, locks := after.locks)
      && (forall key :: key in after.results <==> key in s.results && key != KeyOf(c))
      && (forall key :: key in after.locks <==> key in s.locks && key != KeyOf(c))
  {
  }

  // ---------------------------------------------------------------- who fails a session

  /** Registration, gateway call, commit or what follows the commit fails for this caller. */
  predicate Stumbles(s: System, e: Event, id: nat) {
    || (e == Register(id, false) && In(s, id, Registering))
    || (e == Answer(id, None) && In(s, id, Waiting))
    || (&& e.Commit? && e.id == id && id in s.callers && s.callers[id].phase.Committing?
        && (!e.settled || Tx(s.db, CommitAction(s.callers[id], s.callers[id].phase.meterWh, e.now)).None?))
  }

  ghost predicate HasStumbled(s: System, events: seq<Event>, id: nat) {
    events != [] &&
      (|| HasStumbled(s, events[..|events| - 1], id)
       || Stumbles(RunSystem(s, events[..|events| - 1]), events[|events| - 1], id))
  }

  predicate Stumbled(s: System, id: nat) {
    In(s, id, Failing) || In(s, id, Leaving(Failed)) || In(s, id, Done(Failed))
  }

  /** A caller turns to failing its session in exactly the steps in which it stumbles, and then never replies. */
  lemma StumblesIff(s: System, e: Event, id: nat)
    ensures !In(s, id, Failing) ==> (In(Next(s, e), id, Failing) <==> Stumbles(s, e, id))
    ensures Stumbled(s, id) ==> Stumbled(Next(s, e), id)
  {
  }

  /** A step fails a session only for a caller that turned to it, or as a transaction of somebody else. */
  lemma OnlyTheFailingFail(s: System, e: Event, sid: nat)
    requires Exists(s.db, sid) && s.db.sessions[sid].status != FAILED
    requires Exists(Next(s, e).db, sid) && Next(s, e).db.sessions[sid].status == FAILED
    ensures
      || (e.FailSession? && In(s, e.id, Failing) && s.callers[e.id].sid == sid)
      || (e.Other? && e.action.Fail? && e.action.sid == sid)
  {
    var before, after := s.db, Next(s, e).db;
    if e.Prepare? && In(s, e.id, Producing) {
      var c := s.callers[e.id];
      PrepareIsAStep(before, c, e.now);
      EntersNotFailed(before, Entering(c, e.now), sid);
    } else if e.Commit? && e.id in s.callers && s.callers[e.id].phase.Committing? {
      EntersNotFailed(before, CommitAction(s.callers[e.id], s.callers[e.id].phase.meterWh, e.now), sid);
    } else if e.Other? {
      EntersNotFailed(before, e.action, sid);
    } else if e.FailSession? && In(s, e.id, Failing) {
      EntersNotFailed(before, Fail(s.callers[e.id].sid, false, e.now), sid);
    }
  }

  lemma PrepareIsAStep(db: Db, c: Caller, now: int)
    ensures PrepareResult(db, c, now).Some? ==> PrepareResult(db, c, now).value.db == Step(db, Entering(c, now))
  {
  }

  lemma EntersNotFailed(db: Db, a: Action, sid: nat)
    requires Exists(db, sid) && db.sessions[sid].status != FAILED
    ensures Exists(Step(db, a), sid)
    ensures Step(db, a).sessions[sid].status == FAILED ==> a.Fail? && a.sid == sid
  {
    StepHasEffect(db, a);
  }

  /** Over every run: a caller that is about to fail its session has stumbled, and one that has stumbled fails. */
  lemma {:induction false} OnlyStumblersFail(s: System, events: seq<Event>, id: nat)
    requires Idle(s)
    ensures In(RunSystem(s, events), id, Failing) ==> HasStumbled(s, events, id)
    ensures HasStumbled(s, events, id) ==> Stumbled(RunSystem(s, events), id)
  {
    if events != [] {
      var front := events[..|events| - 1];
      OnlyStumblersFail(s, front, id);
      StumblesIff(RunSystem(s, front), events[|events| - 1], id);
      hide Next, Stumbles;
    }
  }
}
