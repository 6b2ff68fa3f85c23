/**
  The charging-session transactions (apps/backend/src/charging/charging.service.ts) as functions on
  the tables they touch. One function is one $transaction: it answers the tables after the commit, or
  None when the source throws and everything is rolled back. Transactions are atomic; between two of
  them any other step may run, so a run is any sequence of actions.

  Session ids are positions in the session table (the source draws fresh UUIDs). Energy is counted in
  whole watt-hours.
 */
module Charging {
  import opened Common
  import opened SessionLifecycle

  datatype ConnectorStatus = AVAILABLE | OCCUPIED | RESERVED | OFFLINE | MAINTENANCE

  datatype Connector = Connector(status: ConnectorStatus, version: nat)

  datatype Session = Session(
    user: nat, connector: nat, key: nat, status: Status, version: nat,
    meterStartWh: Option<int>, meterStopWh: Option<int>, energyWh: int)

  datatype Mark = Mark(status: Status, version: nat)

  datatype Audit =
    | SessionCreated(session: nat, after: Mark, createdAt: int)
    | StateChanged(session: nat, before: Mark, after: Mark, createdAt: int)
    | ChargerDisconnected(session: nat, after: Mark, createdAt: int)

  datatype Outbox =
    | CreatedEvent(session: nat, status: Status, version: nat)
    | StateChangedEvent(session: nat, from: Status, to: Status, version: nat)
    | DisconnectedEvent(session: nat, status: Status, version: nat)

  datatype Db = Db(
    sessions: seq<Session>, connectors: map<nat, Connector>, users: map<nat, int>,
    audit: seq<Audit>, outbox: seq<Outbox>)

  /** The columns a transition may set besides status and version. */
  datatype Patch = Patch(meterStartWh: Option<int>, meterStopWh: Option<int>, energyWh: Option<int>)

  const NO_PATCH := Patch(None, None, None)

  function Patched(row: Session, patch: Patch): Session {
    row.(
      meterStartWh := if patch.meterStartWh.Some? then patch.meterStartWh else row.meterStartWh,
      meterStopWh := if patch.meterStopWh.Some? then patch.meterStopWh else row.meterStopWh,
      energyWh := if patch.energyWh.Some? then patch.energyWh.value else row.energyWh)
  }

  predicate Exists(db: Db, sid: nat) {
    sid < |db.sessions|
  }

  /** CHECK constraints of charging_sessions: energy not negative, stop meter not before start meter. */
  predicate RowChecks(row: Session) {
    && row.energyWh >= 0
    && (row.meterStartWh.Some? && row.meterStopWh.Some? ==> row.meterStopWh.value >= row.meterStartWh.value)
  }

  /** The partial unique index charging_sessions_connector_active_key. */
  predicate HasActiveSession(sessions: seq<Session>, connector: nat) {
    exists i :: 0 <= i < |sessions| && sessions[i].connector == connector && Active(sessions[i].status)
  }

  /** The unique index on user and idempotency key. */
  predicate KeyUsed(sessions: seq<Session>, user: nat, key: nat) {
    exists i :: 0 <= i < |sessions| && sessions[i].user == user && sessions[i].key == key
  }

  function WithConnector(db: Db, connector: nat, status: ConnectorStatus): Db {
    if connector in db.connectors then
      db.(connectors := db.connectors[connector := Connector(status, db.connectors[connector].version + 1)])
    else db
  }

  /** `transition`: compare-and-set on (status, version) against what was read, audit and outbox. */
  function Transition(db: Db, sid: nat, known: Session, target: Status, patch: Patch, now: int): Option<Db> {
    if known.status != target && !Edge(known.status, target) then None
    else if known.status == target then Some(db)
    else if !Exists(db, sid) || db.sessions[sid].status != known.status || db.sessions[sid].version != known.version then None
    else
      var row := Patched(db.sessions[sid], patch).(status := target, version := db.sessions[sid].version + 1);
      if !RowChecks(row) then None
      else Some(db.(
        sessions := db.sessions[sid := row],
        audit := db.audit + [StateChanged(sid, Mark(known.status, known.version), Mark(target, row.version), now)],
        outbox := db.outbox + [StateChangedEvent(sid, known.status, target, row.version)]))
  }

  /** `admissible`: the vehicle is one of the user's and a tariff is in force at the station. */
  function CreateTx(db: Db, user: nat, connector: nat, key: nat, admissible: bool, now: int): Option<Db> {
    if !admissible || user !in db.users || connector !in db.connectors then None
    else if db.connectors[connector].status != AVAILABLE then None
    else if HasActiveSession(db.sessions, connector) || KeyUsed(db.sessions, user, key) then None
    else
      var sid := |db.sessions|;
      var reserved := WithConnector(db, connector, RESERVED);
      Some(reserved.(
        sessions := db.sessions + [Session(user, connector, key, PENDING, 1, None, None, 0)],
        audit := db.audit + [SessionCreated(sid, Mark(PENDING, 1), now)],
        outbox := db.outbox + [CreatedEvent(sid, PENDING, 1)]))
  }

  function AuthorizeTx(db: Db, sid: nat, now: int): Option<Db> {
    if !Exists(db, sid) then None
    else if db.sessions[sid].status == AUTHORIZED then Some(db)
    else Transition(db, sid, db.sessions[sid], AUTHORIZED, NO_PATCH, now)
  }

  datatype Prepared = Prepared(db: Db, invokeGateway: bool)

  function PrepareStartTx(db: Db, sid: nat, user: nat, now: int): Option<Prepared> {
    if !Exists(db, sid) || db.sessions[sid].user != user then None
    else
      var session := db.sessions[sid];
      if session.status == STARTING || session.status == CHARGING then Some(Prepared(db, false))
      else if session.status != AUTHORIZED then None
      else if session.connector !in db.connectors
           || db.connectors[session.connector].status in {OFFLINE, OCCUPIED, MAINTENANCE} then None
      else
        var starting := Transition(db, sid, session, STARTING, NO_PATCH, now);
        if starting.None? then None else Some(Prepared(starting.value, true))
  }

  function CommitStartTx(db: Db, sid: nat, meterStartWh: int, now: int): Option<Db> {
    if !Exists(db, sid) then None
    else if db.sessions[sid].status == CHARGING then Some(db)
    else if db.sessions[sid].status != STARTING then None
    else if db.sessions[sid].connector !in db.connectors then None
    else Transition(WithConnector(db, db.sessions[sid].connector, OCCUPIED), sid, db.sessions[sid], CHARGING,
                    Patch(Some(meterStartWh), None, None), now)
  }

  function PrepareStopTx(db: Db, sid: nat, user: nat, now: int): Option<Prepared> {
    if !Exists(db, sid) || db.sessions[sid].user != user then None
    else
      var session := db.sessions[sid];
      if session.status == COMPLETED || session.status == STOPPING then Some(Prepared(db, false))
      else if session.status != CHARGING then None
      else
        var stopping := Transition(db, sid, session, STOPPING, NO_PATCH, now);
        if stopping.None? then None else Some(Prepared(stopping.value, true))
  }

  /** The first half of a STOPPED event: `known` is whatever row the event handler read before. */
  function StopEventTx(db: Db, sid: nat, known: Session, now: int): Option<Db> {
    if known.status == COMPLETED || known.status == STOPPING then Some(db)
    else if known.status != CHARGING then None
    else Transition(db, sid, known, STOPPING, NO_PATCH, now)
  }

  function BilledEnergy(session: Session, meterStopWh: int): int {
    var start := if session.meterStartWh.Some? then session.meterStartWh.value else meterStopWh;
    Max(meterStopWh, start) - start
  }

  function CompleteTx(db: Db, sid: nat, meterStopWh: int, now: int): Option<Db> {
    if !Exists(db, sid) then None
    else if db.sessions[sid].status == COMPLETED then Some(db)
    else if db.sessions[sid].status != STOPPING then None
    else
      var session := db.sessions[sid];
      if session.connector !in db.connectors || session.user !in db.users then None
      else
        var energy := BilledEnergy(session, meterStopWh);
        var start := if session.meterStartWh.Some? then session.meterStartWh.value else meterStopWh;
        var completed := Transition(WithConnector(db, session.connector, AVAILABLE), sid, session, COMPLETED,
                                    Patch(None, Some(Max(meterStopWh, start)), Some(energy)), now);
        if completed.None? then None
        else Some(completed.value.(users := db.users[session.user := db.users[session.user] + energy]))
  }

  /** `recordMeterValue`; `known` is the row the event handler read before the transaction. */
  function MeterTx(db: Db, sid: nat, known: Session, meterWh: int): Option<Db> {
    if known.status != CHARGING then Some(db)
    else if known.meterStartWh.Some? && meterWh < known.meterStartWh.value then None
    else if !Exists(db, sid) || db.sessions[sid].status != CHARGING then Some(db)
    else
      var session := db.sessions[sid];
      var start := if session.meterStartWh.Some? then session.meterStartWh.value else meterWh;
      var row := session.(energyWh := meterWh - start, meterStopWh := Some(meterWh), version := session.version + 1);
      if !RowChecks(row) then None
      else
        var online := if session.connector in db.connectors && db.connectors[session.connector].status == OFFLINE
                      then WithConnector(db, session.connector, OCCUPIED) else db;
        Some(online.(sessions := db.sessions[sid := row]))
  }

  function DisconnectTx(db: Db, sid: nat, now: int): Option<Db> {
    if !Exists(db, sid) then None
    else if db.sessions[sid].status != CHARGING && db.sessions[sid].status != STOPPING then Some(db)
    else if db.sessions[sid].connector !in db.connectors then None
    else
      var row := db.sessions[sid].(version := db.sessions[sid].version + 1);
      Some(WithConnector(db, row.connector, OFFLINE).(
        sessions := db.sessions[sid := row],
        audit := db.audit + [ChargerDisconnected(sid, Mark(row.status, row.version), now)],
        outbox := db.outbox + [DisconnectedEvent(sid, row.status, row.version)]))
  }

  function FailTx(db: Db, sid: nat, disconnected: bool, now: int): Option<Db> {
    if !Exists(db, sid) then None
    else if Terminal(db.sessions[sid].status) then Some(db)
    else if db.sessions[sid].connector !in db.connectors then None
    else Transition(WithConnector(db, db.sessions[sid].connector, if disconnected then OFFLINE else AVAILABLE),
                    sid, db.sessions[sid], FAILED, NO_PATCH, now)
  }

  /** A charge point lost its connection: all its connectors go offline. */
  function OfflineTx(db: Db, lost: set<nat>): Db {
    db.(connectors := map c | c in db.connectors ::
          if c in lost then Connector(OFFLINE, db.connectors[c].version + 1) else db.connectors[c])
  }

  // ---------------------------------------------------------------- runs

  datatype Action =
    | Create(user: nat, connector: nat, key: nat, admissible: bool, now: int)
    | Authorize(sid: nat, now: int)
    | PrepareStart(sid: nat, user: nat, now: int)
    | CommitStart(sid: nat, meterStartWh: int, now: int)
    | PrepareStop(sid: nat, user: nat, now: int)
    | StopEvent(sid: nat, known: Session, now: int)
    | Complete(sid: nat, meterStopWh: int, now: int)
    | Meter(sid: nat, known: Session, meterWh: int)
    | Disconnected(sid: nat, now: int)
    | Fail(sid: nat, disconnected: bool, now: int)
    | ChargePointLost(connectors: set<nat>)
    | SetConnectorStatus(connector: nat, status: ConnectorStatus)

  function DbOf(prepared: Option<Prepared>): Option<Db> {
    if prepared.Some? then Some(prepared.value.db) else None
  }

  function Tx(db: Db, a: Action): Option<Db> {
    match a
    case Create(user, connector, key, admissible, now) => CreateTx(db, user, connector, key, admissible, now)
    case Authorize(sid, now) => AuthorizeTx(db, sid, now)
    case PrepareStart(sid, user, now) => DbOf(PrepareStartTx(db, sid, user, now))
    case CommitStart(sid, meterStartWh, now) => CommitStartTx(db, sid, meterStartWh, now)
    case PrepareStop(sid, user, now) => DbOf(PrepareStopTx(db, sid, user, now))
    case StopEvent(sid, known, now) => StopEventTx(db, sid, known, now)
    case Complete(sid, meterStopWh, now) => CompleteTx(db, sid, meterStopWh, now)
    case Meter(sid, known, meterWh) => MeterTx(db, sid, known, meterWh)
    case Disconnected(sid, now) => DisconnectTx(db, sid, now)
    case Fail(sid, disconnected, now) => FailTx(db, sid, disconnected, now)
    case ChargePointLost(connectors) => Some(OfflineTx(db, connectors))
    case SetConnectorStatus(connector, status) => Some(WithConnector(db, connector, status))
  }

  /** A transaction commits as a whole or leaves the tables alone. */
  function Step(db: Db, a: Action): Db {
    var result := Tx(db, a);
    if result.Some? then result.value else db
  }

  function Run(db: Db, actions: seq<Action>): Db {
    if actions == [] then db else Step(Run(db, actions[..|actions| - 1]), actions[|actions| - 1])
  }

  /** The tables before the first session. */
  predicate Fresh(db: Db) {
    db.sessions == [] && db.audit == [] && db.outbox == []
  }
}
