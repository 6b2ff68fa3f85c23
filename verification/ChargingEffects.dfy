/** The few shapes a committed charging transaction can have, as relations between tables. */
module ChargingEffects {
  import opened Common
  import opened SessionLifecycle
  import opened Charging

  ghost predicate Creates(db: Db, after: Db, user: nat, connector: nat, key: nat, now: int) {
    && connector in db.connectors && db.connectors[connector].status == AVAILABLE
    && !HasActiveSession(db.sessions, connector) && !KeyUsed(db.sessions, user, key)
    && after.sessions == db.sessions + [Session(user, connector, key, PENDING, 1, None, None, 0)]
    && after.connectors == db.connectors[connector := Connector(RESERVED, db.connectors[connector].version + 1)]
    && after.users == db.users
    && after.audit == db.audit + [SessionCreated(|db.sessions|, Mark(PENDING, 1), now)]
    && after.outbox == db.outbox + [CreatedEvent(|db.sessions|, PENDING, 1)]
  }

  /** Session `sid` takes one edge of the lifecycle graph; nothing else happens to the sessions. */
  ghost predicate Transitions(db: Db, after: Db, sid: nat, target: Status, now: int) {
    && Exists(db, sid)
    && var row := db.sessions[sid];
    && Edge(row.status, target)
    && |after.sessions| == |db.sessions|
    && var next := after.sessions[sid];
    && after.sessions == db.sessions[sid := next]
    && next.status == target && next.version == row.version + 1
    && next.user == row.user && next.connector == row.connector && next.key == row.key
    && (target != CHARGING ==> next.meterStartWh == row.meterStartWh)
    && (target != COMPLETED ==> next.meterStopWh == row.meterStopWh && next.energyWh == row.energyWh)
    && after.audit == db.audit + [StateChanged(sid, Mark(row.status, row.version), Mark(target, row.version + 1), now)]
    && after.outbox == db.outbox + [StateChangedEvent(sid, row.status, target, row.version + 1)]
  }

  ghost predicate UsersStay(db: Db, after: Db) {
    after.users == db.users
  }

  /** The energy of a completed session lies between its start meter and the stop meter, never below the start. */
  ghost predicate Bills(before: Session, after: Session, meterStopWh: int) {
    && (before.meterStartWh.None? ==> after.energyWh == 0 && after.meterStopWh == Some(meterStopWh))
    && (before.meterStartWh.Some? ==>
          && after.meterStopWh.Some?
          && after.meterStopWh.value >= meterStopWh && after.meterStopWh.value >= before.meterStartWh.value
          && (after.meterStopWh.value == meterStopWh || after.meterStopWh == before.meterStartWh)
          && after.energyWh == after.meterStopWh.value - before.meterStartWh.value)
  }

  /** A sample is the stop meter so far. */
  ghost predicate Records(before: Session, after: Session, meterWh: int) {
    && after.meterStopWh == Some(meterWh)
    && after.energyWh == (if before.meterStartWh.Some? then meterWh - before.meterStartWh.value else 0)
  }

  /** The increment of the user's total that goes with completing session `sid`. */
  ghost predicate UserGains(db: Db, after: Db, sid: nat) {
    && Exists(db, sid) && Exists(after, sid)
    && db.sessions[sid].user in db.users
    && after.users == db.users[db.sessions[sid].user := db.users[db.sessions[sid].user] + after.sessions[sid].energyWh]
  }

  /** A meter sample or a recoverable disconnect: the row keeps its status and takes a new version. */
  ghost predicate Touches(db: Db, after: Db, sid: nat) {
    && Exists(db, sid)
    && |after.sessions| == |db.sessions|
    && var row := db.sessions[sid];
    && var next := after.sessions[sid];
    && after.sessions == db.sessions[sid := next]
    && (row.status == CHARGING || row.status == STOPPING)
    && next.status == row.status && next.version == row.version + 1
    && next.user == row.user && next.connector == row.connector && next.key == row.key
    && next.meterStartWh == row.meterStartWh
    && after.users == db.users
  }

  ghost predicate LogsDisconnect(db: Db, after: Db, sid: nat, now: int) {
    && Exists(db, sid)
    && var row := db.sessions[sid];
    && after.audit == db.audit + [ChargerDisconnected(sid, Mark(row.status, row.version + 1), now)]
    && after.outbox == db.outbox + [DisconnectedEvent(sid, row.status, row.version + 1)]
  }

  ghost predicate LogsNothing(db: Db, after: Db) {
    after.audit == db.audit && after.outbox == db.outbox
  }

  ghost predicate ConnectorBecomes(db: Db, after: Db, connector: nat, status: ConnectorStatus) {
    && connector in db.connectors
    && after.connectors == db.connectors[connector := Connector(status, db.connectors[connector].version + 1)]
  }

  ghost predicate ConnectorsStay(db: Db, after: Db) {
    after.connectors == db.connectors
  }

  /** A transition that leaves the users alone. */
  ghost predicate PlainTransition(db: Db, after: Db, sid: nat, target: Status, now: int) {
    Transitions(db, after, sid, target, now) && UsersStay(db, after)
  }

  /** What each action does when it does anything. */
  ghost predicate Effect(db: Db, a: Action, after: Db) {
    match a
    case Create(user, connector, key, _, now) =>
      Creates(db, after, user, connector, key, now)
    case Authorize(sid, now) =>
      PlainTransition(db, after, sid, AUTHORIZED, now) && ConnectorsStay(db, after)
    case PrepareStart(sid, user, now) =>
      PlainTransition(db, after, sid, STARTING, now) && ConnectorsStay(db, after)
    case CommitStart(sid, meterStartWh, now) =>
      && PlainTransition(db, after, sid, CHARGING, now) && after.sessions[sid].meterStartWh == Some(meterStartWh)
      && ConnectorBecomes(db, after, db.sessions[sid].connector, OCCUPIED)
    case PrepareStop(sid, user, now) =>
      PlainTransition(db, after, sid, STOPPING, now) && ConnectorsStay(db, after)
    case StopEvent(sid, known, now) =>
      PlainTransition(db, after, sid, STOPPING, now) && ConnectorsStay(db, after)
    case Complete(sid, meterStopWh, now) =>
      && Transitions(db, after, sid, COMPLETED, now) && UserGains(db, after, sid)
      && Bills(db.sessions[sid], after.sessions[sid], meterStopWh)
      && ConnectorBecomes(db, after, db.sessions[sid].connector, AVAILABLE)
    case Meter(sid, known, meterWh) =>
      && Touches(db, after, sid) && LogsNothing(db, after) && db.sessions[sid].status == CHARGING
      && Records(db.sessions[sid], after.sessions[sid], meterWh)
      && var connector := db.sessions[sid].connector;
      && if connector in db.connectors && db.connectors[connector].status == OFFLINE
         then ConnectorBecomes(db, after, connector, OCCUPIED) else ConnectorsStay(db, after)
    case Disconnected(sid, now) =>
      && Touches(db, after, sid) && LogsDisconnect(db, after, sid, now)
      && after.sessions[sid].meterStopWh == db.sessions[sid].meterStopWh
      && after.sessions[sid].energyWh == db.sessions[sid].energyWh
      && ConnectorBecomes(db, after, db.sessions[sid].connector, OFFLINE)
    case Fail(sid, disconnected, now) =>
      && PlainTransition(db, after, sid, FAILED, now)
      && ConnectorBecomes(db, after, db.sessions[sid].connector, if disconnected then OFFLINE else AVAILABLE)
    case ChargePointLost(lost) =>
      && after == db.(connectors := after.connectors) && after.connectors.Keys == db.connectors.Keys
      && forall c :: c in db.connectors ==>
           after.connectors[c] == if c in lost then Connector(OFFLINE, db.connectors[c].version + 1) else db.connectors[c]
    case SetConnectorStatus(connector, status) =>
      && after == db.(connectors := after.connectors)
      && (ConnectorBecomes(db, after, connector, status) || (connector !in db.connectors && ConnectorsStay(db, after)))
  }

  lemma TransitionEffect(db: Db, base: Db, sid: nat, known: Session, target: Status, patch: Patch, now: int)
    requires base.sessions == db.sessions && base.audit == db.audit && base.outbox == db.outbox && base.users == db.users
    requires target != COMPLETED ==> patch.meterStopWh.None? && patch.energyWh.None?
    requires target != CHARGING ==> patch.meterStartWh.None?
    ensures
      var result := Transition(base, sid, known, target, patch, now);
      result.Some? && known.status != target ==>
        && PlainTransition(db, result.value, sid, target, now)
        && result.value.connectors == base.connectors
        && Exists(db, sid) && db.sessions[sid].status == known.status
        && (patch.meterStartWh.Some? ==> result.value.sessions[sid].meterStartWh == patch.meterStartWh)
        && (patch.meterStopWh.Some? ==> result.value.sessions[sid].meterStopWh == patch.meterStopWh)
        && (patch.energyWh.Some? ==> result.value.sessions[sid].energyWh == patch.energyWh.value)
  {
  }

  /** Every action either changes nothing or has its effect. */
  lemma StepHasEffect(db: Db, a: Action)
    ensures Step(db, a) == db || Effect(db, a, Step(db, a))
  {
    match a
    case Authorize(sid, now) =>
      if Exists(db, sid) { TransitionEffect(db, db, sid, db.sessions[sid], AUTHORIZED, NO_PATCH, now); }
    case PrepareStart(sid, user, now) =>
      if Exists(db, sid) { TransitionEffect(db, db, sid, db.sessions[sid], STARTING, NO_PATCH, now); }
    case CommitStart(sid, m, now) =>
      if Exists(db, sid) {
        TransitionEffect(db, WithConnector(db, db.sessions[sid].connector, OCCUPIED), sid, db.sessions[sid], CHARGING,
                         Patch(Some(m), None, None), now);
      }
    case PrepareStop(sid, user, now) =>
      if Exists(db, sid) { TransitionEffect(db, db, sid, db.sessions[sid], STOPPING, NO_PATCH, now); }
    case StopEvent(sid, known, now) =>
      TransitionEffect(db, db, sid, known, STOPPING, NO_PATCH, now);
    case Complete(sid, stop, now) => CompleteEffect(db, sid, stop, now);
    case Fail(sid, disconnected, now) => FailEffect(db, sid, disconnected, now);
    case Meter(sid, known, wh) =>
    case _ =>
  }

  lemma CompleteEffect(db: Db, sid: nat, stop: int, now: int)
    ensures Step(db, Complete(sid, stop, now)) == db
         || Effect(db, Complete(sid, stop, now), Step(db, Complete(sid, stop, now)))
  {
  }

  lemma FailEffect(db: Db, sid: nat, disconnected: bool, now: int)
    ensures Step(db, Fail(sid, disconnected, now)) == db
         || Effect(db, Fail(sid, disconnected, now), Step(db, Fail(sid, disconnected, now)))
  {
  }

  // ---------------------------------------------------------------- when a transaction commits

  ghost predicate ChecksHold(sessions: seq<Session>) {
    forall i :: 0 <= i < |sessions| ==> RowChecks(sessions[i])
  }

  lemma StepKeepsChecks(db: Db, a: Action)
    requires ChecksHold(db.sessions)
    ensures ChecksHold(Step(db, a).sessions)
  {
  }

  /**
    The energy of a session is the distance of its meters, with a start meter from CHARGING on and a
    stop meter once it is COMPLETED.
   */
  predicate SessionInv(session: Session) {
    && session.energyWh >= 0
    && session.energyWh == (if session.meterStartWh.Some? && session.meterStopWh.Some?
                            then session.meterStopWh.value - session.meterStartWh.value else 0)
    && (session.status in {PENDING, AUTHORIZED, STARTING} ==> session.meterStartWh.None? && session.meterStopWh.None?)
    && (session.status in {CHARGING, STOPPING, COMPLETED} ==> session.meterStartWh.Some?)
    && (session.status == COMPLETED ==> session.meterStopWh.Some?)
  }

  lemma StepKeepsMeters(db: Db, a: Action, sid: nat)
    requires sid < |Step(db, a).sessions|
    requires Exists(db, sid) ==> SessionInv(db.sessions[sid])
    ensures SessionInv(Step(db, a).sessions[sid])
  {
  }

  /** After any run the energy of every session is the distance of its two meters, completed or not. */
  lemma {:induction false} EnergyIsTheMeterDistance(db: Db, actions: seq<Action>)
    requires Fresh(db)
    ensures forall sid :: 0 <= sid < |Run(db, actions).sessions| ==> SessionInv(Run(db, actions).sessions[sid])
  {
    if actions != [] {
      EnergyIsTheMeterDistance(db, actions[..|actions| - 1]);
      forall sid | 0 <= sid < |Run(db, actions).sessions| ensures SessionInv(Run(db, actions).sessions[sid]) {
        StepKeepsMeters(Run(db, actions[..|actions| - 1]), actions[|actions| - 1], sid);
      }
    }
  }

  predicate Is(db: Db, sid: nat, status: Status) {
    Exists(db, sid) && db.sessions[sid].status == status
  }

  predicate OwnedBy(db: Db, sid: nat, user: nat) {
    Exists(db, sid) && db.sessions[sid].user == user
  }

  predicate ConnectorKnown(db: Db, sid: nat) {
    Exists(db, sid) && db.sessions[sid].connector in db.connectors
  }

  /** The event handler read a charging session whose start meter is not above the sample. */
  predicate Takes(known: Session, meterWh: int) {
    known.status == CHARGING && (known.meterStartWh.Some? ==> known.meterStartWh.value <= meterWh)
  }

  /** What an action needs to change the tables. */
  ghost predicate Acts(db: Db, a: Action) {
    match a
    case Create(user, connector, key, admissible, _) =>
      && admissible && user in db.users && connector in db.connectors && db.connectors[connector].status == AVAILABLE
      && !HasActiveSession(db.sessions, connector) && !KeyUsed(db.sessions, user, key)
    case Authorize(sid, _) => Is(db, sid, PENDING)
    case PrepareStart(sid, user, _) =>
      && OwnedBy(db, sid, user) && Is(db, sid, AUTHORIZED) && ConnectorKnown(db, sid)
      && var connector := db.connectors[db.sessions[sid].connector];
      && (connector.status == AVAILABLE || connector.status == RESERVED)
    case CommitStart(sid, meterStartWh, _) =>
      && Is(db, sid, STARTING) && ConnectorKnown(db, sid)
      && (db.sessions[sid].meterStopWh.Some? ==> meterStartWh <= db.sessions[sid].meterStopWh.value)
    case PrepareStop(sid, user, _) => OwnedBy(db, sid, user) && Is(db, sid, CHARGING)
    case StopEvent(sid, known, _) =>
      known.status == CHARGING && Is(db, sid, CHARGING) && db.sessions[sid].version == known.version
    case Complete(sid, _, _) => Is(db, sid, STOPPING) && ConnectorKnown(db, sid) && db.sessions[sid].user in db.users
    case Meter(sid, known, meterWh) => Takes(known, meterWh) && Is(db, sid, CHARGING) && Takes(db.sessions[sid], meterWh)
    case Disconnected(sid, _) => (Is(db, sid, CHARGING) || Is(db, sid, STOPPING)) && ConnectorKnown(db, sid)
    case Fail(sid, _, _) => Exists(db, sid) && Active(db.sessions[sid].status) && ConnectorKnown(db, sid)
    case ChargePointLost(_) => true
    case SetConnectorStatus(_, _) => true
  }

  /** What is answered as done although there is nothing left to do. */
  ghost predicate Repeats(db: Db, a: Action) {
    match a
    case Authorize(sid, _) => Is(db, sid, AUTHORIZED)
    case PrepareStart(sid, user, _) => OwnedBy(db, sid, user) && (Is(db, sid, STARTING) || Is(db, sid, CHARGING))
    case CommitStart(sid, _, _) => Is(db, sid, CHARGING)
    case PrepareStop(sid, user, _) => OwnedBy(db, sid, user) && (Is(db, sid, STOPPING) || Is(db, sid, COMPLETED))
    case StopEvent(_, known, _) => known.status == STOPPING || known.status == COMPLETED
    case Complete(sid, _, _) => Is(db, sid, COMPLETED)
    case Meter(sid, known, meterWh) => known.status != CHARGING || (Takes(known, meterWh) && !Is(db, sid, CHARGING))
    case Disconnected(sid, _) => Exists(db, sid) && !Is(db, sid, CHARGING) && !Is(db, sid, STOPPING)
    case Fail(sid, _, _) => Exists(db, sid) && !Active(db.sessions[sid].status)
    case _ => false
  }

  lemma ActingHasEffect(db: Db, a: Action)
    requires ChecksHold(db.sessions) && Acts(db, a)
    ensures Tx(db, a).Some? && Effect(db, a, Step(db, a))
  {
    StepHasEffect(db, a);
    if !a.Create? && !a.ChargePointLost? && !a.SetConnectorStatus? {
      assert RowChecks(db.sessions[a.sid]);
      assert Step(db, a).sessions[a.sid].version == db.sessions[a.sid].version + 1;
    }
  }

  /**
    A transaction commits exactly when it acts or repeats, has its effect in the first case and none
    in the second; start and stop are to call the gateway exactly in the first.
   */
  lemma CommitsIff(db: Db, a: Action)
    requires ChecksHold(db.sessions)
    ensures Tx(db, a).Some? <==> Acts(db, a) || Repeats(db, a)
    ensures Acts(db, a) ==> Effect(db, a, Step(db, a))
    ensures !Acts(db, a) ==> Step(db, a) == db
    ensures a.PrepareStart? && Tx(db, a).Some?
      ==> PrepareStartTx(db, a.sid, a.user, a.now).value.invokeGateway == Acts(db, a)
    ensures a.PrepareStop? && Tx(db, a).Some?
      ==> PrepareStopTx(db, a.sid, a.user, a.now).value.invokeGateway == Acts(db, a)
  {
    if Acts(db, a) {
      ActingHasEffect(db, a);
    }
  }

  // ---------------------------------------------------------------- rows

  /** How one session row may change in one step: it stays, or it moves under the next version. */
  predicate RowMoves(before: Session, after: Session) {
    || after == before
    || (&& after.user == before.user && after.connector == before.connector && after.key == before.key
        && after.version == before.version + 1
        && Active(before.status)
        && (after.status == before.status || Edge(before.status, after.status)))
  }

  /**
    What one step does to the session table: rows are only appended, a terminal row never changes
    again, and a row that changes keeps its status or follows an edge and takes the next version.
   */
  lemma RowsMoveForward(db: Db, a: Action)
    ensures |db.sessions| <= |Step(db, a).sessions|
    ensures forall i :: 0 <= i < |db.sessions| ==> RowMoves(db.sessions[i], Step(db, a).sessions[i])
  {
    StepHasEffect(db, a);
  }

  /** Terminal rows are frozen for the rest of every run, their energy with them. */
  lemma {:induction false} TerminalRowsAreFrozen(db: Db, actions: seq<Action>, sid: nat)
    requires Exists(db, sid) && Terminal(db.sessions[sid].status)
    ensures Exists(Run(db, actions), sid) && Run(db, actions).sessions[sid] == db.sessions[sid]
  {
    if actions != [] {
      var before := Run(db, actions[..|actions| - 1]);
      TerminalRowsAreFrozen(db, actions[..|actions| - 1], sid);
      RowsMoveForward(before, actions[|actions| - 1]);
      assert RowMoves(before.sessions[sid], Step(before, actions[|actions| - 1]).sessions[sid]);
    }
  }

  lemma RankNeverFallsInAStep(db: Db, a: Action, sid: nat)
    requires Exists(db, sid)
    ensures Exists(Step(db, a), sid)
    ensures Rank(db.sessions[sid].status) <= Rank(Step(db, a).sessions[sid].status)
    ensures Step(db, a).sessions[sid].user == db.sessions[sid].user
  {
    RowsMoveForward(db, a);
    var row, next := db.sessions[sid], Step(db, a).sessions[sid];
    assert RowMoves(row, next);
    if Edge(row.status, next.status) {
      EdgesClimb(row.status, next.status);
    }
  }

  /** The lifecycle rank of a row never falls over a run. */
  lemma {:induction false} RankNeverFalls(db: Db, actions: seq<Action>, sid: nat)
    requires Exists(db, sid)
    ensures Exists(Run(db, actions), sid)
    ensures Rank(db.sessions[sid].status) <= Rank(Run(db, actions).sessions[sid].status)
  {
    if actions != [] {
      RankNeverFalls(db, actions[..|actions| - 1], sid);
      RankNeverFallsInAStep(Run(db, actions[..|actions| - 1]), actions[|actions| - 1], sid);
    }
  }
}
