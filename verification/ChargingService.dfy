/**
  The charging service as the source runs it: tables that its methods update in place, a rollback when
  a transaction throws. Each method is one $transaction, is proved against its function in Charging, and
  keeps the tables consistent.
 */
module ChargingServiceModel {
  import opened AuditReplay
  import opened Charging
  import opened ChargingEffects
  import opened Common
  import opened ConnectorExclusivity
  import opened EnergyConservation
  import opened SessionLifecycle

  /** A transaction that answers `ok` either committed `result` or left the tables as they were. */
  ghost predicate Commits(before: Db, result: Option<Db>, ok: bool, after: Db) {
    && ok == result.Some?
    && after == (if result.Some? then result.value else before)
  }

  /** Every user's total is what it was at the opening plus the energy of the completed sessions. */
  ghost predicate Balanced(db: Db, opening: map<nat, int>) {
    && db.users.Keys == opening.Keys
    && (forall user :: user in opening ==> db.users[user] == opening[user] + Billed(db.sessions, user))
  }

  ghost predicate Metered(sessions: seq<Session>) {
    forall sid :: 0 <= sid < |sessions| ==> SessionInv(sessions[sid])
  }

  /**
    What every transaction keeps: one active session a connector, one session a key, energy that is the
    distance of the meters, true logs, true totals.
   */
  ghost predicate Consistent(db: Db, opening: map<nat, int>) {
    && OneActive(db.sessions) && OneSessionAKey(db.sessions) && ChecksHold(db.sessions) && Metered(db.sessions)
    && LogInv(db) && Balanced(db, opening)
  }

  lemma StepKeepsConsistent(db: Db, a: Action, opening: map<nat, int>)
    requires Consistent(db, opening)
    ensures Consistent(Step(db, a), opening)
  {
    StepKeepsOneActive(db, a);
    StepKeepsOneSessionAKey(db, a);
    StepKeepsChecks(db, a);
    StepKeepsMetered(db, a);
    StepKeepsLogs(db, a);
    StepKeepsBalance(db, a, opening);
  }

  lemma StepKeepsMetered(db: Db, a: Action)
    requires Metered(db.sessions)
    ensures Metered(Step(db, a).sessions)
  {
    forall sid | 0 <= sid < |Step(db, a).sessions| ensures SessionInv(Step(db, a).sessions[sid]) {
      StepKeepsMeters(db, a, sid);
    }
  }

  lemma StepKeepsBalance(db: Db, a: Action, opening: map<nat, int>)
    requires Balanced(db, opening)
    ensures Balanced(Step(db, a), opening)
  {
    StepHasEffect(db, a);
    forall user | user in opening
      ensures user in Step(db, a).users && Step(db, a).users[user] == opening[user] + Billed(Step(db, a).sessions, user)
    {
      StepConserves(db, a, user);
    }
  }

  /** The session that completes or fails was the only active one on its connector. */
  lemma EndingFreesTheConnector(db: Db, a: Action, opening: map<nat, int>)
    requires Consistent(db, opening) && (a.Complete? || a.Fail?) && Step(db, a) != db
    ensures Exists(db, a.sid) && !HasActiveSession(Step(db, a).sessions, db.sessions[a.sid].connector)
  {
    StepHasEffect(db, a);
    EdgeStartsActive(db.sessions[a.sid].status, Step(db, a).sessions[a.sid].status);
    UpdateKeepsOneActive(db.sessions, a.sid, Step(db, a).sessions[a.sid]);
  }

  lemma CompletionGives(db: Db, sid: nat, meterStopWh: int, now: int, opening: map<nat, int>)
    requires Consistent(db, opening) && Exists(db, sid) && db.sessions[sid].status == STOPPING
    ensures
      var result := CompleteTx(db, sid, meterStopWh, now);
      result.Some? ==>
        && Exists(result.value, sid) && result.value.sessions[sid].status == COMPLETED
        && result.value.sessions[sid].connector == db.sessions[sid].connector
        && db.sessions[sid].connector in result.value.connectors
        && result.value.connectors[db.sessions[sid].connector].status == AVAILABLE
        && !HasActiveSession(result.value.sessions, db.sessions[sid].connector)
        && Bills(db.sessions[sid], result.value.sessions[sid], meterStopWh)
  {
    if CompleteTx(db, sid, meterStopWh, now).Some? {
      EndingFreesTheConnector(db, Action.Complete(sid, meterStopWh, now), opening);
    }
  }

  class ChargingService {
    var sessions: seq<Session>
    var connectors: map<nat, Connector>
    var users: map<nat, int>
    var audit: seq<Audit>
    var outbox: seq<Outbox>
    /** The totals of the users before the first session. */
    ghost const opening: map<nat, int>

    function State(): Db
      reads this
    {
      Db(sessions, connectors, users, audit, outbox)
    }

    ghost predicate Valid()
      reads this
    {
      Consistent(State(), opening)
    }

    predicate Known(sid: nat)
      reads this`sessions
    {
      sid < |sessions|
    }

    constructor (connectors: map<nat, Connector>, users: map<nat, int>)
      ensures Valid() && Fresh(State())
      ensures this.connectors == connectors && this.users == users && opening == users
    {
      this.sessions := [];
      this.connectors := connectors;
      this.users := users;
      this.audit := [];
      this.outbox := [];
      this.opening := users;
    }

    /** `transition`, inside the transaction of the caller. */
    method Transition(sid: nat, known: Session, target: Status, patch: Patch, now: int) returns (ok: bool)
      modifies this`sessions, this`audit, this`outbox
      ensures Commits(old(State()), Charging.Transition(old(State()), sid, known, target, patch, now), ok, State())
      ensures !ok || known.status == target ==> State() == old(State())
      ensures ok && known.status != target ==>
        && Edge(known.status, target)
        && sid < |old(sessions)| == |sessions|
        && old(sessions)[sid].status == known.status && old(sessions)[sid].version == known.version
        && sessions[sid].status == target && sessions[sid].version == known.version + 1
        && (forall other :: 0 <= other < |sessions| && other != sid ==> sessions[other] == old(sessions)[other])
        && audit == old(audit) + [StateChanged(sid, Mark(known.status, known.version), Mark(target, known.version + 1), now)]
        && outbox == old(outbox) + [StateChangedEvent(sid, known.status, target, known.version + 1)]
      ensures ok <==>
        || known.status == target
        || (&& Edge(known.status, target)
            && sid < |old(sessions)| && old(sessions)[sid].status == known.status && old(sessions)[sid].version == known.version
            && RowChecks(Patched(old(sessions)[sid], patch)))
    {
      if known.status != target && !Edge(known.status, target) {
        return false;
      }
      if known.status == target {
        return true;
      }
      if sid >= |sessions| || sessions[sid].status != known.status || sessions[sid].version != known.version {
        return false;
      }
      var row := Patched(sessions[sid], patch).(status := target, version := sessions[sid].version + 1);
      if !RowChecks(row) {
        return false;
      }
      sessions := sessions[sid := row];
      audit := audit + [StateChanged(sid, Mark(known.status, known.version), Mark(target, row.version), now)];
      outbox := outbox + [StateChangedEvent(sid, known.status, target, row.version)];
      return true;
    }

    /** `connector.update` inside a transaction; the old table is kept for a rollback. */
    method SetConnector(connector: nat, status: ConnectorStatus)
      modifies this`connectors
      ensures State() == WithConnector(old(State()), connector, status)
    {
      if connector in connectors {
        connectors := connectors[connector := Connector(status, connectors[connector].version + 1)];
      }
    }

    /** The serializable transaction of `create`. */
    method Create(user: nat, connector: nat, key: nat, admissible: bool, now: int) returns (ok: bool)
      requires Valid()
      modifies this
      ensures Valid()
      ensures Commits(old(State()), CreateTx(old(State()), user, connector, key, admissible, now), ok, State())
      ensures ok ==>
        && !HasActiveSession(old(sessions), connector) && HasActiveSession(sessions, connector)
        && !KeyUsed(old(sessions), user, key) && KeyUsed(sessions, user, key)
        && connector in connectors && connectors[connector].status == RESERVED
    {
      hide Consistent;
      StepKeepsConsistent(State(), Action.Create(user, connector, key, admissible, now), opening);
      if !admissible || user !in users || connector !in connectors || connectors[connector].status != AVAILABLE {
        return false;
      }
      if exists i :: 0 <= i < |sessions| && sessions[i].connector == connector && Active(sessions[i].status) {
        return false;
      }
      if exists i :: 0 <= i < |sessions| && sessions[i].user == user && sessions[i].key == key {
        return false;
      }
      var sid := |sessions|;
      SetConnector(connector, RESERVED);
      sessions := sessions + [Session(user, connector, key, PENDING, 1, None, None, 0)];
      audit := audit + [SessionCreated(sid, Mark(PENDING, 1), now)];
      outbox := outbox + [CreatedEvent(sid, PENDING, 1)];
      assert sessions[sid].connector == connector && sessions[sid].user == user && sessions[sid].key == key;
      return true;
    }

    method Authorize(sid: nat, now: int) returns (ok: bool)
      requires Valid()
      modifies this
      ensures Valid()
      ensures Commits(old(State()), AuthorizeTx(old(State()), sid, now), ok, State())
      ensures ok <==> sid < |old(sessions)| && old(sessions)[sid].status in {PENDING, AUTHORIZED}
      ensures ok ==> Known(sid) && sessions[sid].status == AUTHORIZED
    {
      StepKeepsConsistent(State(), Action.Authorize(sid, now), opening);
      if sid >= |sessions| {
        return false;
      }
      if sessions[sid].status == AUTHORIZED {
        return true;
      }
      ok := Transition(sid, sessions[sid], AUTHORIZED, NO_PATCH, now);
    }

    /** The first transaction of `start`. */
    method PrepareStart(sid: nat, user: nat, now: int) returns (ok: bool, invokeGateway: bool)
      requires Valid()
      modifies this
      ensures Valid()
      ensures Commits(old(State()), DbOf(PrepareStartTx(old(State()), sid, user, now)), ok, State())
      ensures invokeGateway <==>
        ok && old(sessions)[sid].status == AUTHORIZED && Known(sid) && sessions[sid].status == STARTING
      ensures !invokeGateway ==> State() == old(State())
    {
      hide Consistent;
      StepKeepsConsistent(State(), Action.PrepareStart(sid, user, now), opening);
      if sid >= |sessions| || sessions[sid].user != user {
        return false, false;
      }
      var session := sessions[sid];
      if session.status == STARTING || session.status == CHARGING {
        return true, false;
      }
      if session.status != AUTHORIZED {
        return false, false;
      }
      if session.connector !in connectors || connectors[session.connector].status in {OFFLINE, OCCUPIED, MAINTENANCE} {
        return false, false;
      }
      ok := Transition(sid, session, STARTING, NO_PATCH, now);
      invokeGateway := ok;
    }

    /** The second transaction of `start`: connector first, then the transition that may throw. */
    method CommitStart(sid: nat, meterStartWh: int, now: int) returns (ok: bool)
      requires Valid()
      modifies this
      ensures Valid()
      ensures Commits(old(State()), CommitStartTx(old(State()), sid, meterStartWh, now), ok, State())
      ensures ok ==> Known(sid) && sessions[sid].status == CHARGING
      ensures ok && old(sessions)[sid].status == STARTING ==>
        && sessions[sid].meterStartWh == Some(meterStartWh)
        && connectors[sessions[sid].connector].status == OCCUPIED
    {
      hide Consistent;
      StepKeepsConsistent(State(), Action.CommitStart(sid, meterStartWh, now), opening);
      if sid >= |sessions| {
        return false;
      }
      var current := sessions[sid];
      if current.status == CHARGING {
        return true;
      }
      if current.status != STARTING || current.connector !in connectors {
        return false;
      }
      var saved := connectors;
      SetConnector(current.connector, OCCUPIED);
      ok := Transition(sid, current, CHARGING, Patch(Some(meterStartWh), None, None), now);
      if !ok {
        connectors := saved;
      }
    }

    /** The first transaction of `stop`. */
    method PrepareStop(sid: nat, user: nat, now: int) returns (ok: bool, invokeGateway: bool)
      requires Valid()
      modifies this
      ensures Valid()
      ensures Commits(old(State()), DbOf(PrepareStopTx(old(State()), sid, user, now)), ok, State())
      ensures invokeGateway <==>
        ok && old(sessions)[sid].status == CHARGING && Known(sid) && sessions[sid].status == STOPPING
      ensures !invokeGateway ==> State() == old(State())
    {
      hide Consistent;
      StepKeepsConsistent(State(), Action.PrepareStop(sid, user, now), opening);
      if sid >= |sessions| || sessions[sid].user != user {
        return false, false;
      }
      var session := sessions[sid];
      if session.status == COMPLETED || session.status == STOPPING {
        return true, false;
      }
      if session.status != CHARGING {
        return false, false;
      }
      ok := Transition(sid, session, STOPPING, NO_PATCH, now);
      invokeGateway := ok;
    }

    /** The STOPPED branch of `handleChargerEvent` up to `completeSession`; `known` may be stale. */
    method BeginStopEvent(sid: nat, known: Session, now: int) returns (ok: bool)
      requires Valid()
      modifies this
      ensures Valid()
      ensures Commits(old(State()), StopEventTx(old(State()), sid, known, now), ok, State())
      ensures known.status == CHARGING ==>
        (ok <==> && sid < |old(sessions)|
                 && old(sessions)[sid].status == CHARGING && old(sessions)[sid].version == known.version
                 && Known(sid) && sessions[sid].status == STOPPING)
    {
      hide Consistent;
      StepKeepsConsistent(State(), Action.StopEvent(sid, known, now), opening);
      if known.status == COMPLETED || known.status == STOPPING {
        return true;
      }
      if known.status != CHARGING {
        return false;
      }
      ok := Transition(sid, known, STOPPING, NO_PATCH, now);
    }

    /** `completeSession` */
    method CompleteSession(sid: nat, meterStopWh: int, now: int) returns (ok: bool)
      requires Valid()
      modifies this
      ensures Valid()
      ensures Commits(old(State()), CompleteTx(old(State()), sid, meterStopWh, now), ok, State())
      ensures ok ==> Known(sid) && sessions[sid].status == COMPLETED
      ensures ok && old(sessions)[sid].status == STOPPING ==>
        && !HasActiveSession(sessions, sessions[sid].connector)
        && connectors[sessions[sid].connector].status == AVAILABLE
        && Bills(old(sessions)[sid], sessions[sid], meterStopWh)
    {
      ghost var before := State();
      hide Consistent;
      StepKeepsConsistent(before, Action.Complete(sid, meterStopWh, now), opening);
      if Known(sid) && sessions[sid].status == STOPPING {
        CompletionGives(before, sid, meterStopWh, now, opening);
      }
      if sid >= |sessions| {
        return false;
      }
      var current := sessions[sid];
      if current.status == COMPLETED {
        return true;
      }
      if current.status != STOPPING || current.connector !in connectors || current.user !in users {
        return false;
      }
      var meterStartWh := if current.meterStartWh.Some? then current.meterStartWh.value else meterStopWh;
      var normalizedStop := if meterStopWh < meterStartWh then meterStartWh else meterStopWh;
      var energyWh := normalizedStop - meterStartWh;
      SetConnector(current.connector, AVAILABLE);
      ok := Transition(sid, current, COMPLETED, Patch(None, Some(normalizedStop), Some(energyWh)), now);
      // The row is as it was read and its meters are in order, so there is nothing to roll back.
      assert ok;
      users := users[current.user := users[current.user] + energyWh];
      assert State() == CompleteTx(before, sid, meterStopWh, now).value;
    }

    /** `recordMeterValue` */
    method RecordMeterValue(sid: nat, known: Session, meterWh: int) returns (ok: bool)
      requires Valid()
      modifies this
      ensures Valid()
      ensures Commits(old(State()), MeterTx(old(State()), sid, known, meterWh), ok, State())
      ensures ok && known.status == CHARGING && Known(sid) && sessions[sid].status == CHARGING ==>
        && sessions[sid].meterStopWh == Some(meterWh)
        && (sessions[sid].connector in connectors ==> connectors[sessions[sid].connector].status != OFFLINE)
    {
      hide Consistent;
      StepKeepsConsistent(State(), Action.Meter(sid, known, meterWh), opening);
      if known.status != CHARGING {
        return true;
      }
      var startWh := if known.meterStartWh.Some? then known.meterStartWh.value else meterWh;
      if meterWh < startWh {
        return false;
      }
      if sid >= |sessions| || sessions[sid].status != CHARGING {
        return true;
      }
      var current := sessions[sid];
      var energyWh := meterWh - (if current.meterStartWh.Some? then current.meterStartWh.value else meterWh);
      var row := current.(energyWh := energyWh, meterStopWh := Some(meterWh), version := current.version + 1);
      if !RowChecks(row) {
        return false;
      }
      if current.connector in connectors && connectors[current.connector].status == OFFLINE {
        SetConnector(current.connector, OCCUPIED);
      }
      sessions := sessions[sid := row];
      return true;
    }

    /** `markRecoverableDisconnect` */
    method MarkRecoverableDisconnect(sid: nat, now: int) returns (ok: bool)
      requires Valid()
      modifies this
      ensures Valid()
      ensures Commits(old(State()), DisconnectTx(old(State()), sid, now), ok, State())
      ensures ok ==> Known(sid) && sessions[sid].status == old(sessions)[sid].status
      ensures ok && sessions[sid].status in {CHARGING, STOPPING} ==>
        connectors[sessions[sid].connector].status == OFFLINE && |audit| == |old(audit)| + 1
    {
      hide Consistent;
      StepKeepsConsistent(State(), Action.Disconnected(sid, now), opening);
      if sid >= |sessions| {
        return false;
      }
      var current := sessions[sid];
      if current.status != CHARGING && current.status != STOPPING {
        return true;
      }
      if current.connector !in connectors {
        return false;
      }
      SetConnector(current.connector, OFFLINE);
      var row := current.(version := current.version + 1);
      sessions := sessions[sid := row];
      audit := audit + [ChargerDisconnected(sid, Mark(row.status, row.version), now)];
      outbox := outbox + [DisconnectedEvent(sid, row.status, row.version)];
      return true;
    }

    /** `failSession` */
    method FailSession(sid: nat, disconnected: bool, now: int) returns (ok: bool)
      requires Valid()
      modifies this
      ensures Valid()
      ensures Commits(old(State()), FailTx(old(State()), sid, disconnected, now), ok, State())
      ensures ok ==> Known(sid) && Terminal(sessions[sid].status)
      ensures ok && State() != old(State()) ==> !HasActiveSession(sessions, sessions[sid].connector)
    {
      hide Consistent;
      StepKeepsConsistent(State(), Action.Fail(sid, disconnected, now), opening);
      if FailTx(State(), sid, disconnected, now).Some? && !Terminal(sessions[sid].status) {
        EndingFreesTheConnector(State(), Action.Fail(sid, disconnected, now), opening);
      }
      if sid >= |sessions| {
        return false;
      }
      var current := sessions[sid];
      if Terminal(current.status) {
        return true;
      }
      if current.connector !in connectors {
        return false;
      }
      var saved := connectors;
      SetConnector(current.connector, if disconnected then OFFLINE else AVAILABLE);
      ok := Transition(sid, current, FAILED, NO_PATCH, now);
      if !ok {
        connectors := saved;
      }
    }
  }
}
