/**
  What each call and callback of the charger simulator needs, answers and leaves behind
  (apps/charger-simulator/src/simulator.ts), in terms of the connectors and sessions alone, and how far
  its meter is from the energy that flowed.
 */
module SimulatorCalls {
  import opened Common
  import opened Simulator

  // ---------------------------------------------------------------- meters

  /** The watt-hours of one interval: kW times ms is 3600 of them. */
  function Energy(powerKw: real, intervalMs: real): real {
    powerKw * intervalMs / 3600.0
  }

  /** A tick counts its energy to the nearest watt-hour, but one at least. */
  lemma TickCountsItsEnergy(powerKw: real, intervalMs: real)
    ensures
      var exact, counted := Energy(powerKw, intervalMs), IncrementWh(powerKw, intervalMs);
      && counted >= 1
      && (exact < 0.5 ==> counted == 1)
      && (exact >= 0.5 ==> exact - 0.5 < counted as real <= exact + 0.5)
  {
    var exact := Energy(powerKw, intervalMs);
    var watts := powerKw * 1000.0;
    assert watts * intervalMs == powerKw * intervalMs * 1000.0;
    assert watts * intervalMs / 3600000.0 == exact;
  }

  /** So many watt-hours for so many ticks are the exact energy to half a watt-hour a tick. */
  ghost predicate Counts(ticks: nat, countedWh: int, exact: real) {
    ticks as real * (exact - 0.5) <= countedWh as real <= ticks as real * (exact + 0.5)
  }

  lemma TicksCount(ticks: nat, increment: int, exact: real)
    requires exact - 0.5 < increment as real <= exact + 0.5
    ensures Counts(ticks, ticks * increment, exact)
  {
    RealProduct(ticks, increment);
    TimesKeepsOrder(ticks as real, exact - 0.5, increment as real, exact + 0.5, (ticks * increment) as real);
  }

  lemma {:induction false} RealProduct(n: nat, x: int)
    ensures (n * x) as real == n as real * x as real
  {
    if n > 0 {
      RealProduct(n - 1, x);
      assert (n - 1) as real == n as real - 1.0;
      assert n * x == (n - 1) * x + x;
    }
  }

  lemma TimesKeepsOrder(n: real, low: real, x: real, high: real, product: real)
    requires n >= 0.0 && low <= x <= high && product == n * x
    ensures n * low <= product <= n * high
  {
    assert n * (x - low) >= 0.0 && n * (high - x) >= 0.0;
  }

  /** In every run the meter stands that close to where its session started plus the energy of its ticks. */
  lemma MetersCountTheEnergy(s: State, events: seq<Event>, intervalMs: real, sid: string)
    requires Inv(s) && sid in s.sessions && s.sessions[sid].ticks == 0
    requires Energy(s.sessions[sid].powerKw, intervalMs) >= 0.5
    ensures sid in Run(s, events, intervalMs).sessions
    ensures
      var session := Run(s, events, intervalMs).sessions[sid];
      Counts(session.ticks, session.meterWh - s.sessions[sid].meterWh, Energy(s.sessions[sid].powerKw, intervalMs))
  {
    SessionsKeepTheirBase(s, events, intervalMs, sid);
    TickCountsItsEnergy(s.sessions[sid].powerKw, intervalMs);
    TicksCount(Run(s, events, intervalMs).sessions[sid].ticks, IncrementWh(s.sessions[sid].powerKw, intervalMs),
               Energy(s.sessions[sid].powerKw, intervalMs));
    hide Counts, Energy, IncrementWh, Run, Inv, SessionMoves;
  }

  // ---------------------------------------------------------------- calls

  /** Nobody charges on the connector. */
  ghost predicate Idle(s: State, connector: string) {
    forall sid :: sid in s.sessions && s.sessions[sid].connector == connector ==> s.sessions[sid].status != CHARGING
  }

  predicate Charging(s: State, sid: string) {
    sid in s.sessions && s.sessions[sid].status == CHARGING
  }

  /** What a call needs to change anything. */
  ghost predicate Permits(s: State, e: Event) {
    match e
    case RegisterConnector(connector, maximumPowerKw, _) => connector != "" && maximumPowerKw > 0.0
    case SetConnectorStatus(connector, status) => connector in s.connectors && (status == AVAILABLE ==> Idle(s, connector))
    case StartSession(sid, connector, _, _) =>
      sid !in s.sessions && connector in s.connectors && s.connectors[connector].status == AVAILABLE && Idle(s, connector)
    case StopSession(sid) => Charging(s, sid)
    case FailSession(sid) => Charging(s, sid)
    case DisconnectSession(sid) => Charging(s, sid)
    case Fire(tick, sid) => tick !in s.ticks && Charging(s, sid) && s.sessions[sid].timer
    case Callback(tick, _) => tick in s.ticks
    case Shutdown => true
  }

  /** Only the status of this connector may have changed, to this one. */
  ghost predicate ConnectorBecomes(s: State, after: State, connector: string, status: ConnectorStatus) {
    && connector in s.connectors
    && after.connectors == s.connectors[connector := Connector(s.connectors[connector].maximumPowerKw, status)]
  }

  /** Only this session may have changed. */
  ghost predicate SessionBecomes(s: State, after: State, sid: string, session: Session) {
    after.sessions == s.sessions[sid := session]
  }

  /** The session failed and its connector has the status that goes with it. */
  ghost predicate Fails(s: State, after: State, sid: string, status: ConnectorStatus) {
    && sid in s.sessions
    && var was := s.sessions[sid];
    && SessionBecomes(s, after, sid,
         Session(was.connector, was.meterWh, was.finalMeterWh, was.powerKw, was.scenario, FAILED, was.ticks, false))
    && ConnectorBecomes(s, after, was.connector, status)
  }

  ghost predicate Least(x: real, a: real, b: real, c: real) {
    x <= a && x <= b && x <= c && (x == a || x == b || x == c)
  }

  /** The scenario ends a charging session at its third tick or later. */
  predicate EndsNow(s: State, tick: nat, scenario: Scenario) {
    && tick in s.ticks && s.ticks[tick].Posting?
    && Charging(s, s.ticks[tick].session)
    && s.sessions[s.ticks[tick].session].ticks >= 3 && s.sessions[s.ticks[tick].session].scenario == scenario
  }

  ghost predicate CallbackLeaves(s: State, tick: nat, ok: bool, after: State)
    requires tick in s.ticks
  {
    var sid := s.ticks[tick].session;
    if !ok && sid in s.sessions then Fails(s, after, sid, FAULTED) && after.ticks == s.ticks - {tick}
    else if ok && EndsNow(s, tick, FAIL_AFTER_3) then
      Fails(s, after, sid, FAULTED) && after.ticks == s.ticks[tick := Ending(sid)]
    else if ok && EndsNow(s, tick, DISCONNECT_AFTER_3) then
      Fails(s, after, sid, OFFLINE) && after.ticks == s.ticks[tick := Ending(sid)]
    else after == s.(ticks := s.ticks - {tick})
  }

  ghost predicate StartLeaves(s: State, sid: string, connector: string, maximumPowerKw: real, scenario: Scenario, after: State) {
    && ConnectorBecomes(s, after, connector, OCCUPIED) && after.ticks == s.ticks
    && sid in after.sessions
    && var made := after.sessions[sid];
    && made == Session(connector, 1000000 + 10000 * |s.sessions|, None, made.powerKw, scenario, CHARGING, 0, true)
    && Least(made.powerKw, s.connectors[connector].maximumPowerKw, maximumPowerKw, 74.0)
    && SessionBecomes(s, after, sid, made)
  }

  ghost predicate StopLeaves(s: State, sid: string, after: State) {
    && sid in s.sessions && after.ticks == s.ticks
    && var was := s.sessions[sid];
    && SessionBecomes(s, after, sid,
         Session(was.connector, was.meterWh, Some(was.meterWh), was.powerKw, was.scenario, COMPLETED, was.ticks, false))
    && was.connector in s.connectors
    && (s.connectors[was.connector].status == OFFLINE ==> after.connectors == s.connectors)
    && (s.connectors[was.connector].status != OFFLINE ==> ConnectorBecomes(s, after, was.connector, AVAILABLE))
  }

  ghost predicate FireLeaves(s: State, tick: nat, sid: string, intervalMs: real, after: State) {
    && sid in s.sessions && sid in after.sessions
    && var was := s.sessions[sid];
    && after == s.(sessions := s.sessions[sid := was.(ticks := was.ticks + 1, meterWh := after.sessions[sid].meterWh)],
                   ticks := s.ticks[tick := Posting(sid)])
    && after.sessions[sid].meterWh == was.meterWh + IncrementWh(was.powerKw, intervalMs)
  }

  /** What a call leaves behind. */
  ghost predicate Leaves(s: State, e: Event, intervalMs: real, after: State) {
    match e
    case RegisterConnector(connector, maximumPowerKw, status) =>
      && after == s.(connectors := after.connectors) && connector in after.connectors
      && after.connectors == s.connectors[connector := Connector(maximumPowerKw, after.connectors[connector].status)]
      && (connector in s.connectors && s.connectors[connector].status == OCCUPIED ==> after.connectors[connector].status == OCCUPIED)
      && (connector !in s.connectors || s.connectors[connector].status != OCCUPIED ==> after.connectors[connector].status == status)
    case SetConnectorStatus(connector, status) =>
      ConnectorBecomes(s, after, connector, status) && after == s.(connectors := after.connectors)
    case StartSession(sid, connector, maximumPowerKw, scenario) => StartLeaves(s, sid, connector, maximumPowerKw, scenario, after)
    case StopSession(sid) => StopLeaves(s, sid, after)
    case FailSession(sid) => Fails(s, after, sid, FAULTED) && after.ticks == s.ticks
    case DisconnectSession(sid) => Fails(s, after, sid, OFFLINE) && after.ticks == s.ticks
    case Fire(tick, sid) => FireLeaves(s, tick, sid, intervalMs, after)
    case Callback(tick, ok) => tick in s.ticks && CallbackLeaves(s, tick, ok, after)
    case Shutdown =>
      && after == s.(sessions := after.sessions) && after.sessions.Keys == s.sessions.Keys
      && forall sid :: sid in s.sessions ==> after.sessions[sid] == s.sessions[sid].(timer := false)
  }

  lemma IdleIffNotBusy(s: State, connector: string)
    ensures Idle(s, connector) <==> !Busy(s, connector)
  {
    if !Idle(s, connector) {
      var sid :| sid in s.sessions && s.sessions[sid].connector == connector && s.sessions[sid].status == CHARGING;
      assert IsCharging(s, sid, connector);
    }
  }

  lemma CallbacksLeave(s: State, tick: nat, ok: bool)
    requires Inv(s) && tick in s.ticks
    ensures CallbackLeaves(s, tick, ok, CallbackStep(s, tick, ok))
  {
  }

  lemma StartsLeave(s: State, sid: string, connector: string, maximumPowerKw: real, scenario: Scenario)
    ensures
      var started := Start(s, sid, connector, maximumPowerKw, scenario);
      if Permits(s, StartSession(sid, connector, maximumPowerKw, scenario))
      then started.Some? && StartLeaves(s, sid, connector, maximumPowerKw, scenario, started.value.state)
      else started.Some? ==> started.value.state == s
  {
    IdleIffNotBusy(s, connector);
    hide Busy, Idle;
  }

  /** A call that is not permitted changes nothing, any other leaves exactly what it should. */
  lemma CallsLeave(s: State, e: Event, intervalMs: real)
    requires Inv(s)
    ensures Permits(s, e) ==> Leaves(s, e, intervalMs, Next(s, e, intervalMs))
    ensures !Permits(s, e) ==> Next(s, e, intervalMs) == s
  {
    match e
    case StartSession(sid, connector, maximumPowerKw, scenario) =>
      StartsLeave(s, sid, connector, maximumPowerKw, scenario);
      hide Start, StartLeaves;
    case Callback(tick, ok) =>
      if tick in s.ticks { CallbacksLeave(s, tick, ok); }
      hide CallbackLeaves;
    case SetConnectorStatus(connector, _) =>
      IdleIffNotBusy(s, connector);
      hide Busy, Idle;
    case _ => hide IncrementWh;
  }

  /** Registering and setting a status end with an error exactly when they are not permitted. */
  lemma RefusedCalls(s: State, connector: string, maximumPowerKw: real, status: ConnectorStatus)
    ensures Register(s, connector, maximumPowerKw, status).Some?
      <==> Permits(s, RegisterConnector(connector, maximumPowerKw, status))
    ensures SetStatus(s, connector, status).Some? <==> Permits(s, Event.SetConnectorStatus(connector, status))
  {
    IdleIffNotBusy(s, connector);
  }

  /** What the callers of start and stop are told, and when they get an error. */
  lemma CallsAnswer(s: State, sid: string, connector: string, maximumPowerKw: real, scenario: Scenario)
    requires Inv(s)
    ensures
      var started := Start(s, sid, connector, maximumPowerKw, scenario);
      && (started.Some? <==> sid in s.sessions || Permits(s, StartSession(sid, connector, maximumPowerKw, scenario)))
      && (started.Some? ==>
            && sid in started.value.state.sessions
            && started.value.meterStartWh == started.value.state.sessions[sid].meterWh
            && started.value.powerKw == started.value.state.sessions[sid].powerKw)
    ensures
      var stopped := Stop(s, sid);
      && (stopped.Some? <==> sid in s.sessions && s.sessions[sid].status != FAILED)
      && (stopped.Some? ==> stopped.value.meterStopWh == s.sessions[sid].meterWh)
      && (stopped.Some? && s.sessions[sid].status == COMPLETED ==> stopped.value.state == s)
  {
    IdleIffNotBusy(s, connector);
    hide Busy;
  }
}
