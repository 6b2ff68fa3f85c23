/**
  The charger simulator (apps/charger-simulator/src/simulator.ts) as functions on its two maps, and what
  every run of it keeps. A meter tick runs up to its callback, and the callback may be answered, or fail,
  at any later time. Powers are exact reals, meters whole watt-hours.
 */
module Simulator {
  import opened Common

  datatype ConnectorStatus = AVAILABLE | OCCUPIED | OFFLINE | FAULTED

  datatype Connector = Connector(maximumPowerKw: real, status: ConnectorStatus)

  datatype Scenario = NORMAL | FAIL_AFTER_3 | DISCONNECT_AFTER_3

  datatype Status = CHARGING | COMPLETED | FAILED

  datatype Session = Session(
    connector: string, meterWh: int, finalMeterWh: Option<int>, powerKw: real,
    scenario: Scenario, status: Status, ticks: nat, timer: bool)

  /** A tick whose callback is out: the meter value, or the failure that followed it. */
  datatype Tick = Posting(session: string) | Ending(session: string)

  datatype State = State(connectors: map<string, Connector>, sessions: map<string, Session>, ticks: map<nat, Tick>)

  const EMPTY := State(map[], map[], map[])

  function MinReal(a: real, b: real): real {
    if a <= b then a else b
  }

  function IncrementWh(powerKw: real, intervalMs: real): int {
    Max(1, (powerKw * 1000.0 * intervalMs / 3600000.0 + 0.5).Floor)
  }

  predicate IsCharging(s: State, sid: string, connector: string) {
    sid in s.sessions && s.sessions[sid].connector == connector && s.sessions[sid].status == CHARGING
  }

  predicate Busy(s: State, connector: string) {
    exists sid :: sid in s.sessions && IsCharging(s, sid, connector)
  }

  function WithSession(s: State, sid: string, session: Session): State {
    s.(sessions := s.sessions[sid := session])
  }

  function WithStatus(s: State, connector: string, status: ConnectorStatus): State {
    if connector in s.connectors then
      s.(connectors := s.connectors[connector := s.connectors[connector].(status := status)])
    else s
  }

  // ---------------------------------------------------------------- operations; None is a thrown error

  function Register(s: State, connector: string, maximumPowerKw: real, status: ConnectorStatus): Option<State> {
    if connector == "" || maximumPowerKw <= 0.0 then None
    else
      var kept := connector in s.connectors && s.connectors[connector].status == OCCUPIED;
      Some(s.(connectors := s.connectors[connector := Connector(maximumPowerKw, if kept then OCCUPIED else status)]))
  }

  function SetStatus(s: State, connector: string, status: ConnectorStatus): Option<State> {
    if connector !in s.connectors then None
    else if status == AVAILABLE && Busy(s, connector) then None
    else Some(WithStatus(s, connector, status))
  }

  datatype Started = Started(state: State, meterStartWh: int, powerKw: real)

  function Start(s: State, sid: string, connector: string, maximumPowerKw: real, scenario: Scenario): Option<Started> {
    if sid in s.sessions then Some(Started(s, s.sessions[sid].meterWh, s.sessions[sid].powerKw))
    else if connector !in s.connectors || s.connectors[connector].status != AVAILABLE || Busy(s, connector) then None
    else
      var powerKw := MinReal(MinReal(s.connectors[connector].maximumPowerKw, maximumPowerKw), 74.0);
      var meterWh := 1000000 + 10000 * |s.sessions|;
      var session := Session(connector, meterWh, None, powerKw, scenario, CHARGING, 0, true);
      Some(Started(WithSession(WithStatus(s, connector, OCCUPIED), sid, session), meterWh, powerKw))
  }

  datatype Stopped = Stopped(state: State, meterStopWh: int)

  function Stop(s: State, sid: string): Option<Stopped> {
    if sid !in s.sessions then None
    else
      var session := s.sessions[sid];
      if session.status == COMPLETED && session.finalMeterWh.Some? then Some(Stopped(s, session.finalMeterWh.value))
      else if session.status != CHARGING then None
      else
        var completed := WithSession(s, sid, session.(timer := false, status := COMPLETED, finalMeterWh := Some(session.meterWh)));
        if session.connector !in s.connectors then None
        else Some(Stopped(
          if s.connectors[session.connector].status != OFFLINE then WithStatus(completed, session.connector, AVAILABLE) else completed,
          session.meterWh))
  }

  /** `fail` and `disconnect` up to their callback. */
  function End(s: State, sid: string, status: ConnectorStatus): State {
    if sid in s.sessions && s.sessions[sid].status == CHARGING then
      WithStatus(WithSession(s, sid, s.sessions[sid].(timer := false, status := FAILED)), s.sessions[sid].connector, status)
    else s
  }

  /** A timer fires: count, meter, and post. */
  function TickStep(s: State, tick: nat, sid: string, intervalMs: real): State {
    if tick !in s.ticks && sid in s.sessions && s.sessions[sid].timer && s.sessions[sid].status == CHARGING then
      var session := s.sessions[sid];
      WithSession(s, sid, session.(ticks := session.ticks + 1,
                                   meterWh := session.meterWh + IncrementWh(session.powerKw, intervalMs)))
        .(ticks := s.ticks[tick := Posting(sid)])
    else s
  }

  /** The catch handler of the timer: it does not look at the status. */
  function CatchStep(s: State, sid: string): State {
    if sid in s.sessions then
      WithStatus(WithSession(s, sid, s.sessions[sid].(timer := false, status := FAILED)), s.sessions[sid].connector, FAULTED)
    else s
  }

  /** The scenario that a tick may end its session by. */
  function EndingOf(session: Session): Option<ConnectorStatus> {
    if session.ticks < 3 then None
    else match session.scenario
      case FAIL_AFTER_3 => Some(FAULTED)
      case DISCONNECT_AFTER_3 => Some(OFFLINE)
      case NORMAL => None
  }

  /** The callback of a tick is answered or fails. */
  function CallbackStep(s: State, tick: nat, ok: bool): State {
    if tick in s.ticks then
      var sid := s.ticks[tick].session;
      var done := s.(ticks := s.ticks - {tick});
      if !ok then CatchStep(done, sid)
      else if s.ticks[tick].Ending? || sid !in s.sessions || EndingOf(s.sessions[sid]).None? || s.sessions[sid].status != CHARGING
        then done
      else End(s, sid, EndingOf(s.sessions[sid]).value).(ticks := s.ticks[tick := Ending(sid)])
    else s
  }

  function ShutdownStep(s: State): State {
    s.(sessions := map sid | sid in s.sessions :: s.sessions[sid].(timer := false))
  }

  datatype Event =
    | RegisterConnector(connector: string, maximumPowerKw: real, connectorStatus: ConnectorStatus)
    | SetConnectorStatus(connector: string, connectorStatus: ConnectorStatus)
    | StartSession(sid: string, connector: string, maximumPowerKw: real, scenario: Scenario)
    | StopSession(sid: string)
    | FailSession(sid: string)
    | DisconnectSession(sid: string)
    | Fire(tick: nat, sid: string)
    | Callback(tick: nat, ok: bool)
    | Shutdown

  function Next(s: State, e: Event, intervalMs: real): State {
    match e
    case RegisterConnector(c, maximum, status) => var r := Register(s, c, maximum, status); if r.Some? then r.value else s
    case SetConnectorStatus(c, status) => var r := SetStatus(s, c, status); if r.Some? then r.value else s
    case StartSession(sid, c, maximum, scenario) => var r := Start(s, sid, c, maximum, scenario); if r.Some? then r.value.state else s
    case StopSession(sid) => var r := Stop(s, sid); if r.Some? then r.value.state else s
    case FailSession(sid) => End(s, sid, FAULTED)
    case DisconnectSession(sid) => End(s, sid, OFFLINE)
    case Fire(tick, sid) => TickStep(s, tick, sid, intervalMs)
    case Callback(tick, ok) => CallbackStep(s, tick, ok)
    case Shutdown => ShutdownStep(s)
  }

  function Run(s: State, events: seq<Event>, intervalMs: real): State {
    if events == [] then s
    else Next(Run(s, events[..|events| - 1], intervalMs), events[|events| - 1], intervalMs)
  }

  // ---------------------------------------------------------------- what a session keeps

  /** What a number of ticks adds to a meter, tick by tick. */
  function Advance(ticks: nat, inc: int): int {
    if ticks == 0 then 0 else Advance(ticks - 1, inc) + inc
  }

  lemma {:induction false} AdvanceIsProduct(ticks: nat, inc: int)
    ensures Advance(ticks, inc) == ticks * inc
  {
    if ticks > 0 {
      AdvanceIsProduct(ticks - 1, inc);
      assert (ticks - 1) * inc + inc == ticks * inc;
    }
  }

  lemma {:induction false} AdvanceGrows(ticks: nat, inc: int)
    requires inc >= 1
    ensures Advance(ticks, inc) >= ticks
  {
    if ticks > 0 {
      AdvanceGrows(ticks - 1, inc);
    }
  }

  /** The meter a session started from. */
  function Base(session: Session, intervalMs: real): int {
    session.meterWh - Advance(session.ticks, IncrementWh(session.powerKw, intervalMs))
  }

  predicate SessionFits(session: Session) {
    && (session.timer ==> session.status == CHARGING)
    && (session.status == CHARGING ==> session.finalMeterWh.None?)
    && (session.status == COMPLETED ==> session.finalMeterWh.Some?)
    && (session.finalMeterWh.Some? ==> session.finalMeterWh.value == session.meterWh)
  }

  ghost predicate SessionsFit(s: State) {
    forall sid :: sid in s.sessions ==> SessionFits(s.sessions[sid]) && s.sessions[sid].connector in s.connectors
  }

  ghost predicate OneCharging(s: State) {
    forall a, b :: a in s.sessions && b in s.sessions && a != b
      && s.sessions[a].status == CHARGING && s.sessions[b].status == CHARGING
      ==> s.sessions[a].connector != s.sessions[b].connector
  }

  ghost predicate Inv(s: State) {
    SessionsFit(s) && OneCharging(s)
  }

  /** How one session row may change: its place, power and base stay; CHARGING is only left; a final meter is final. */
  predicate SessionMoves(before: Session, after: Session, intervalMs: real) {
    && after.connector == before.connector && after.powerKw == before.powerKw && after.scenario == before.scenario
    && (after.status == CHARGING ==> before.status == CHARGING)
    && Base(after, intervalMs) == Base(before, intervalMs)
    && before.ticks <= after.ticks
    && (before.status != CHARGING ==> after.meterWh == before.meterWh && after.ticks == before.ticks && after.finalMeterWh == before.finalMeterWh)
    && (before.finalMeterWh.Some? ==> after.finalMeterWh == before.finalMeterWh)
  }

  /** A step that changes one session that exists, and any connector statuses. */
  ghost predicate Touches(s: State, next: State, sid: string) {
    && sid in s.sessions && sid in next.sessions
    && next.sessions == s.sessions[sid := next.sessions[sid]]
    && s.connectors.Keys <= next.connectors.Keys
  }

  lemma TouchKeepsInv(s: State, next: State, sid: string, intervalMs: real)
    requires Inv(s) && Touches(s, next, sid)
    requires SessionFits(next.sessions[sid]) && SessionMoves(s.sessions[sid], next.sessions[sid], intervalMs)
    ensures Inv(next)
  {
  }

  ghost predicate AllMove(s: State, next: State, intervalMs: real) {
    forall sid :: sid in s.sessions ==> sid in next.sessions && SessionMoves(s.sessions[sid], next.sessions[sid], intervalMs)
  }

  lemma TickKeeps(s: State, tick: nat, sid: string, intervalMs: real)
    requires Inv(s)
    ensures Inv(TickStep(s, tick, sid, intervalMs)) && AllMove(s, TickStep(s, tick, sid, intervalMs), intervalMs)
  {
  }

  lemma EndKeeps(s: State, sid: string, status: ConnectorStatus, intervalMs: real)
    requires Inv(s)
    ensures Inv(End(s, sid, status)) && AllMove(s, End(s, sid, status), intervalMs)
  {
  }

  lemma CatchKeeps(s: State, sid: string, intervalMs: real)
    requires Inv(s)
    ensures Inv(CatchStep(s, sid)) && AllMove(s, CatchStep(s, sid), intervalMs)
  {
  }

  lemma CallbackKeeps(s: State, tick: nat, ok: bool, intervalMs: real)
    requires Inv(s)
    ensures Inv(CallbackStep(s, tick, ok)) && AllMove(s, CallbackStep(s, tick, ok), intervalMs)
  {
    if tick in s.ticks {
      var sid := s.ticks[tick].session;
      if !ok {
        CatchKeeps(s.(ticks := s.ticks - {tick}), sid, intervalMs);
      } else if sid in s.sessions && EndingOf(s.sessions[sid]).Some? {
        EndKeeps(s, sid, EndingOf(s.sessions[sid]).value, intervalMs);
      }
    }
  }

  lemma StopKeeps(s: State, sid: string, intervalMs: real)
    requires Inv(s) && Stop(s, sid).Some?
    ensures Inv(Stop(s, sid).value.state) && AllMove(s, Stop(s, sid).value.state, intervalMs)
  {
    if s.sessions[sid].status == CHARGING {
      TouchKeepsInv(s, Stop(s, sid).value.state, sid, intervalMs);
    }
  }

  lemma StartKeeps(s: State, sid: string, c: string, maximum: real, scenario: Scenario, intervalMs: real)
    requires Inv(s) && Start(s, sid, c, maximum, scenario).Some?
    ensures
      var next := Start(s, sid, c, maximum, scenario).value.state;
      Inv(next) && AllMove(s, next, intervalMs)
  {
  }

  lemma ConnectorsKeep(s: State, e: Event, intervalMs: real)
    requires Inv(s) && (e.RegisterConnector? || e.SetConnectorStatus? || e.Shutdown?)
    ensures Inv(Next(s, e, intervalMs)) && AllMove(s, Next(s, e, intervalMs), intervalMs)
  {
  }

  lemma NextKeeps(s: State, e: Event, intervalMs: real)
    requires Inv(s)
    ensures Inv(Next(s, e, intervalMs)) && AllMove(s, Next(s, e, intervalMs), intervalMs)
  {
    match e
    case StartSession(sid, c, maximum, scenario) =>
      if Start(s, sid, c, maximum, scenario).Some? { StartKeeps(s, sid, c, maximum, scenario, intervalMs); }
    case StopSession(sid) => if Stop(s, sid).Some? { StopKeeps(s, sid, intervalMs); }
    case FailSession(sid) => EndKeeps(s, sid, FAULTED, intervalMs);
    case DisconnectSession(sid) => EndKeeps(s, sid, OFFLINE, intervalMs);
    case Fire(tick, sid) => TickKeeps(s, tick, sid, intervalMs);
    case Callback(tick, ok) => CallbackKeeps(s, tick, ok, intervalMs);
    case _ => ConnectorsKeep(s, e, intervalMs);
  }

  /**
    After any run: at most one session charges on a connector, a live timer belongs to a charging
    session, and a final meter is the session's meter.
   */
  lemma {:induction false} RunsKeepInv(events: seq<Event>, intervalMs: real)
    ensures Inv(Run(EMPTY, events, intervalMs))
  {
    if events != [] {
      RunsKeepInv(events[..|events| - 1], intervalMs);
      NextKeeps(Run(EMPTY, events[..|events| - 1], intervalMs), events[|events| - 1], intervalMs);
    }
  }

  /**
    From then on a session keeps its base, so its meter is always base plus ticks times its increment of
    at least one; and once it has a final meter, or has stopped charging, meter and final meter stay.
   */
  lemma {:induction false} SessionsKeepTheirBase(s: State, events: seq<Event>, intervalMs: real, sid: string)
    requires Inv(s) && sid in s.sessions
    ensures Inv(Run(s, events, intervalMs)) && sid in Run(s, events, intervalMs).sessions
    ensures SessionMoves(s.sessions[sid], Run(s, events, intervalMs).sessions[sid], intervalMs)
    ensures
      var session := Run(s, events, intervalMs).sessions[sid];
      var increment := IncrementWh(s.sessions[sid].powerKw, intervalMs);
      increment >= 1 && session.meterWh == Base(s.sessions[sid], intervalMs) + session.ticks * increment
  {
    if events != [] {
      SessionsKeepTheirBase(s, events[..|events| - 1], intervalMs, sid);
      NextKeeps(Run(s, events[..|events| - 1], intervalMs), events[|events| - 1], intervalMs);
    }
    AdvanceIsProduct(Run(s, events, intervalMs).sessions[sid].ticks, IncrementWh(s.sessions[sid].powerKw, intervalMs));
  }

  // ---------------------------------------------------------------- what one call gives its caller

  /** A session that was started is the only one that charges on its connector. */
  lemma StartGives(s: State, sid: string, c: string, maximum: real, scenario: Scenario, intervalMs: real)
    requires Inv(s) && Start(s, sid, c, maximum, scenario).Some?
    ensures
      var next := Start(s, sid, c, maximum, scenario).value.state;
      Inv(next) && (sid !in s.sessions ==> forall other :: IsCharging(next, other, c) ==> other == sid)
  {
    StartKeeps(s, sid, c, maximum, scenario, intervalMs);
  }

  /** A stop can be repeated at once with the same answer. */
  lemma StopGives(s: State, sid: string, intervalMs: real)
    requires Inv(s) && Stop(s, sid).Some?
    ensures
      var stopped := Stop(s, sid).value;
      Inv(stopped.state) && Stop(stopped.state, sid) == Some(stopped)
  {
    StopKeeps(s, sid, intervalMs);
  }

  lemma TickGives(s: State, tick: nat, sid: string, intervalMs: real)
    requires Inv(s) && tick !in s.ticks && sid in s.sessions && s.sessions[sid].timer
    ensures
      var next := TickStep(s, tick, sid, intervalMs);
      && Inv(next) && next.sessions.Keys == s.sessions.Keys
      && next.sessions[sid].meterWh > s.sessions[sid].meterWh
      && (forall other :: other in s.sessions && other != sid ==> next.sessions[other] == s.sessions[other])
  {
    TickKeeps(s, tick, sid, intervalMs);
  }

  /** After a shutdown no timer fires any more, so no meter moves. */
  lemma ShutdownGives(s: State, intervalMs: real)
    requires Inv(s)
    ensures Inv(ShutdownStep(s))
    ensures forall sid, tick :: TickStep(ShutdownStep(s), tick, sid, intervalMs) == ShutdownStep(s)
  {
    ConnectorsKeep(s, Shutdown, intervalMs);
  }

  // ---------------------------------------------------------------- repeated starts and stops

  /** A session that has moved on from its first meter shows it again exactly while it has not ticked. */
  lemma SameMeterIff(before: Session, after: Session, intervalMs: real)
    requires SessionMoves(before, after, intervalMs) && before.ticks == 0
    ensures after.meterWh >= before.meterWh
    ensures after.meterWh == before.meterWh <==> after.ticks == 0
  {
    AdvanceGrows(after.ticks, IncrementWh(after.powerKw, intervalMs));
  }

  lemma StartMakesTheSession(s: State, sid: string, c: string, maximum: real, scenario: Scenario)
    requires sid !in s.sessions && Start(s, sid, c, maximum, scenario).Some?
    ensures
      var first := Start(s, sid, c, maximum, scenario).value;
      && sid in first.state.sessions
      && first.state.sessions[sid].ticks == 0 && first.state.sessions[sid].powerKw == first.powerKw
      && first.state.sessions[sid].meterWh == first.meterStartWh == 1000000 + 10000 * |s.sessions|
  {
  }

  /**
    A repeated start answers the meter of the moment: it is the first answer again exactly as long as the
    session has not ticked.
   */
  lemma RepeatedStartAnswersTheSameIff(s: State, sid: string, c: string, maximum: real, scenario: Scenario,
                                       events: seq<Event>, c2: string, maximum2: real, scenario2: Scenario, intervalMs: real)
    requires Inv(s) && sid !in s.sessions && Start(s, sid, c, maximum, scenario).Some?
    ensures
      var first := Start(s, sid, c, maximum, scenario).value;
      var later := Run(first.state, events, intervalMs);
      var again := Start(later, sid, c2, maximum2, scenario2);
      && sid in later.sessions && again.Some? && again.value.state == later
      && again.value.powerKw == first.powerKw
      && again.value.meterStartWh >= first.meterStartWh == 1000000 + 10000 * |s.sessions|
      && (again.value.meterStartWh == first.meterStartWh <==> later.sessions[sid].ticks == 0)
  {
    var first := Start(s, sid, c, maximum, scenario).value;
    StartKeeps(s, sid, c, maximum, scenario, intervalMs);
    StartMakesTheSession(s, sid, c, maximum, scenario);
    SessionsKeepTheirBase(first.state, events, intervalMs, sid);
    SameMeterIff(first.state.sessions[sid], Run(first.state, events, intervalMs).sessions[sid], intervalMs);
  }

  /** A callback that fails after its session was stopped. */
  predicate FailsLate(s: State, e: Event, sid: string) {
    e.Callback? && !e.ok && e.tick in s.ticks && s.ticks[e.tick].session == sid
  }

  lemma CompletedUntilLateFailure(s: State, e: Event, sid: string, intervalMs: real)
    requires Inv(s) && sid in s.sessions && s.sessions[sid].status == COMPLETED
    ensures sid in Next(s, e, intervalMs).sessions
    ensures Next(s, e, intervalMs).sessions[sid].status == COMPLETED <==> !FailsLate(s, e, sid)
  {
  }

  ghost predicate NeverFailsLate(s: State, events: seq<Event>, sid: string, intervalMs: real) {
    events != [] ==>
      && NeverFailsLate(s, events[..|events| - 1], sid, intervalMs)
      && !FailsLate(Run(s, events[..|events| - 1], intervalMs), events[|events| - 1], sid)
  }

  lemma EndedStaysEnded(s: State, e: Event, sid: string, intervalMs: real)
    requires sid in s.sessions && s.sessions[sid].status == FAILED
    ensures sid in Next(s, e, intervalMs).sessions && Next(s, e, intervalMs).sessions[sid].status == FAILED
  {
  }

  lemma {:induction false} StaysCompletedIff(s: State, events: seq<Event>, sid: string, intervalMs: real)
    requires Inv(s) && sid in s.sessions && s.sessions[sid].status == COMPLETED
    ensures Inv(Run(s, events, intervalMs)) && sid in Run(s, events, intervalMs).sessions
    ensures Run(s, events, intervalMs).sessions[sid].status ==
              if NeverFailsLate(s, events, sid, intervalMs) then COMPLETED else FAILED
  {
    if events != [] {
      var front, e := events[..|events| - 1], events[|events| - 1];
      StaysCompletedIff(s, front, sid, intervalMs);
      var before := Run(s, front, intervalMs);
      NextKeeps(before, e, intervalMs);
      if before.sessions[sid].status == COMPLETED {
        CompletedUntilLateFailure(before, e, sid, intervalMs);
        assert SessionMoves(before.sessions[sid], Next(before, e, intervalMs).sessions[sid], intervalMs);
      } else {
        EndedStaysEnded(before, e, sid, intervalMs);
      }
    }
  }

  /**
    A repeated stop answers the same meter again, for ever, exactly as long as no callback that was
    already out when the session stopped fails afterwards; then it is refused.
   */
  lemma RepeatedStopAnswersTheSameIff(s: State, sid: string, events: seq<Event>, intervalMs: real)
    requires Inv(s) && Stop(s, sid).Some?
    ensures
      var first := Stop(s, sid).value;
      var again := Stop(Run(first.state, events, intervalMs), sid);
      && (again.Some? <==> NeverFailsLate(first.state, events, sid, intervalMs))
      && (again.Some? ==> again.value.meterStopWh == first.meterStopWh && again.value.state == Run(first.state, events, intervalMs))
  {
    var first := Stop(s, sid).value;
    StopKeeps(s, sid, intervalMs);
    assert SessionFits(s.sessions[sid]);
    StaysCompletedIff(first.state, events, sid, intervalMs);
    SessionsKeepTheirBase(first.state, events, intervalMs, sid);
  }

  // ---------------------------------------------------------------- connectors

  /** A late failure of a stopped session faults the connector under the session that charges there now. */
  lemma LateFailureFaultsTheNextSession(s: State, tick: nat, stopped: string, now: string)
    requires Inv(s) && tick in s.ticks && s.ticks[tick] == Posting(stopped) && stopped in s.sessions && stopped != now
    requires s.sessions[stopped].status == COMPLETED && IsCharging(s, now, s.sessions[stopped].connector)
    ensures
      var after := CallbackStep(s, tick, false);
      IsCharging(after, now, s.sessions[stopped].connector) && after.connectors[s.sessions[stopped].connector].status == FAULTED
  {
  }

  lemma RunTwo(s: State, events: seq<Event>, a: Event, b: Event, intervalMs: real)
    ensures Run(s, events + [a, b], intervalMs) == Next(Next(Run(s, events, intervalMs), a, intervalMs), b, intervalMs)
  {
    assert (events + [a, b])[..|events + [a, b]| - 1] == events + [a];
    assert (events + [a])[..|events|] == events;
  }

  /** Six steps from nothing: start, tick, stop, start another, and the callback of the tick fails. */
  function FailingLate(stopped: string, now: string, connector: string): seq<Event> {
    [RegisterConnector(connector, 22.0, AVAILABLE), StartSession(stopped, connector, 22.0, NORMAL)]
    + [Fire(0, stopped), StopSession(stopped)] + [StartSession(now, connector, 22.0, NORMAL), Callback(0, false)]
  }

  /** The only session so far has ticked once and is stopped; the callback of the tick is still out. */
  predicate StoppedWithATickOut(s: State, stopped: string, connector: string) {
    && s.sessions.Keys == {stopped} && s.sessions[stopped].connector == connector && s.sessions[stopped].status == COMPLETED
    && connector in s.connectors && s.connectors[connector].status == AVAILABLE
    && s.ticks == map[0 := Posting(stopped)]
  }

  lemma StopsWithATickOut(stopped: string, connector: string, intervalMs: real)
    requires connector != ""
    ensures
      var started := Next(Next(EMPTY, RegisterConnector(connector, 22.0, AVAILABLE), intervalMs),
                          StartSession(stopped, connector, 22.0, NORMAL), intervalMs);
      StoppedWithATickOut(Next(Next(started, Fire(0, stopped), intervalMs), StopSession(stopped), intervalMs), stopped, connector)
  {
    hide IncrementWh;
    var started := Next(Next(EMPTY, RegisterConnector(connector, 22.0, AVAILABLE), intervalMs),
                        StartSession(stopped, connector, 22.0, NORMAL), intervalMs);
    assert started.sessions.Keys == {stopped} && IsCharging(started, stopped, connector) && started.sessions[stopped].timer;
    var ticked := Next(started, Fire(0, stopped), intervalMs);
    assert ticked.sessions.Keys == {stopped} && IsCharging(ticked, stopped, connector);
  }

  lemma FaultsTheNewOne(s: State, stopped: string, now: string, connector: string, intervalMs: real)
    requires StoppedWithATickOut(s, stopped, connector) && stopped != now
    ensures
      var after := Next(Next(s, StartSession(now, connector, 22.0, NORMAL), intervalMs), Callback(0, false), intervalMs);
      && IsCharging(after, now, connector) && after.connectors.Keys == s.connectors.Keys
      && after.connectors[connector].status == FAULTED
  {
    assert !Busy(s, connector);
    var started := Next(s, StartSession(now, connector, 22.0, NORMAL), intervalMs);
    assert IsCharging(started, now, connector) && stopped in started.sessions;
  }

  /** The new session charges on a connector that the old one has faulted. */
  lemma LateFailureFaultsANewSession(stopped: string, now: string, connector: string, intervalMs: real)
    requires stopped != now && connector != ""
    ensures
      var s := Run(EMPTY, FailingLate(stopped, now, connector), intervalMs);
      IsCharging(s, now, connector) && connector in s.connectors && s.connectors[connector].status == FAULTED
  {
    var first := [RegisterConnector(connector, 22.0, AVAILABLE), StartSession(stopped, connector, 22.0, NORMAL)];
    RunTwo(EMPTY, [], first[0], first[1], intervalMs);
    assert [] + [first[0], first[1]] == first;
    RunTwo(EMPTY, first, Fire(0, stopped), StopSession(stopped), intervalMs);
    RunTwo(EMPTY, first + [Fire(0, stopped), StopSession(stopped)],
           StartSession(now, connector, 22.0, NORMAL), Callback(0, false), intervalMs);
    hide Next, Run;
    StopsWithATickOut(stopped, connector, intervalMs);
    FaultsTheNewOne(Run(EMPTY, first + [Fire(0, stopped), StopSession(stopped)], intervalMs), stopped, now, connector, intervalMs);
  }

  /**
    `setConnectorStatus` never offers a busy connector; a registration does, exactly when the connector
    is not marked as occupied.
   */
  lemma OffersABusyConnectorIff(s: State, connector: string, maximum: real)
    requires Inv(s) && Busy(s, connector) && connector in s.connectors && connector != "" && maximum > 0.0
    ensures SetStatus(s, connector, AVAILABLE).None?
    ensures Register(s, connector, maximum, AVAILABLE).value.connectors[connector].status == AVAILABLE
            <==> s.connectors[connector].status != OCCUPIED
  {
  }
}

/** The simulator class, its maps set in place; every method keeps the invariant of the runs. */
module ChargerSimulatorModel {
  import opened Common
  import S = Simulator

  class ChargerSimulator {
    var connectors: map<string, S.Connector>
    var sessions: map<string, S.Session>
    var ticks: map<nat, S.Tick>
    const meterIntervalMs: real
    const defaultScenario: S.Scenario

    function State(): S.State
      reads this
    {
      S.State(connectors, sessions, ticks)
    }

    ghost predicate Valid()
      reads this
    {
      S.Inv(State())
    }

    constructor (meterIntervalMs: Option<real>, defaultScenario: Option<S.Scenario>)
      ensures Valid() && State() == S.EMPTY
      ensures this.meterIntervalMs == if meterIntervalMs.Some? then meterIntervalMs.value else 1000.0
      ensures this.defaultScenario == if defaultScenario.Some? then defaultScenario.value else S.NORMAL
    {
      connectors, sessions, ticks := map[], map[], map[];
      this.meterIntervalMs := if meterIntervalMs.Some? then meterIntervalMs.value else 1000.0;
      this.defaultScenario := if defaultScenario.Some? then defaultScenario.value else S.NORMAL;
    }

    method RegisterConnector(connector: string, maximumPowerKw: real, status: S.ConnectorStatus) returns (ok: bool)
      requires Valid()
      modifies this`connectors
      ensures Valid()
      ensures
        var result := S.Register(old(State()), connector, maximumPowerKw, status);
        ok == result.Some? && State() == if ok then result.value else old(State())
      ensures ok <==> connector != "" && maximumPowerKw > 0.0
    {
      if connector == "" || maximumPowerKw <= 0.0 {
        return false;
      }
      var kept := status;
      if connector in connectors && connectors[connector].status == S.OCCUPIED {
        kept := S.OCCUPIED;
      }
      connectors := connectors[connector := S.Connector(maximumPowerKw, kept)];
      return true;
    }

    /** A connector that was made available this way has no charging session. */
    method SetConnectorStatus(connector: string, status: S.ConnectorStatus) returns (ok: bool)
      requires Valid()
      modifies this`connectors
      ensures Valid()
      ensures
        var result := S.SetStatus(old(State()), connector, status);
        ok == result.Some? && State() == if ok then result.value else old(State())
      ensures ok && status == S.AVAILABLE ==> !S.Busy(State(), connector)
    {
      if connector !in connectors {
        return false;
      }
      if status == S.AVAILABLE && S.Busy(State(), connector) {
        return false;
      }
      connectors := connectors[connector := connectors[connector].(status := status)];
      return true;
    }

    /** A session that was started is the only one that charges on its connector. */
    method Start(sid: string, connector: string, maximumPowerKw: real, scenario: Option<S.Scenario>)
      returns (ok: bool, meterStartWh: int, powerKw: real)
      requires Valid()
      modifies this`connectors, this`sessions
      ensures Valid()
      ensures
        var result := S.Start(old(State()), sid, connector, maximumPowerKw,
                              if scenario.Some? then scenario.value else defaultScenario);
        && ok == result.Some? && State() == (if ok then result.value.state else old(State()))
        && (ok ==> meterStartWh == result.value.meterStartWh && powerKw == result.value.powerKw)
      ensures ok && sid !in old(sessions) ==>
        forall other :: S.IsCharging(State(), other, connector) ==> other == sid
    {
      if S.Start(State(), sid, connector, maximumPowerKw, if scenario.Some? then scenario.value else defaultScenario).Some? {
        S.StartGives(State(), sid, connector, maximumPowerKw, if scenario.Some? then scenario.value else defaultScenario, meterIntervalMs);
      }
      hide S.Inv, S.IsCharging;
      if sid in sessions {
        return true, sessions[sid].meterWh, sessions[sid].powerKw;
      }
      if connector !in connectors || connectors[connector].status != S.AVAILABLE {
        return false, 0, 0.0;
      }
      if S.Busy(State(), connector) {
        return false, 0, 0.0;
      }
      powerKw := S.MinReal(S.MinReal(connectors[connector].maximumPowerKw, maximumPowerKw), 74.0);
      meterStartWh := 1000000 + 10000 * |sessions|;
      connectors := connectors[connector := connectors[connector].(status := S.OCCUPIED)];
      sessions := sessions[sid := S.Session(connector, meterStartWh, None, powerKw,
                                            if scenario.Some? then scenario.value else defaultScenario, S.CHARGING, 0, true)];
      ok := true;
      assert State() == S.Start(old(State()), sid, connector, maximumPowerKw,
                                if scenario.Some? then scenario.value else defaultScenario).value.state;
    }

    /** A stop that succeeds can be repeated at once with the same answer. */
    method Stop(sid: string) returns (ok: bool, meterStopWh: int)
      requires Valid()
      modifies this`connectors, this`sessions
      ensures Valid()
      ensures
        var result := S.Stop(old(State()), sid);
        && ok == result.Some? && State() == (if ok then result.value.state else old(State()))
        && (ok ==> meterStopWh == result.value.meterStopWh)
      ensures ok ==> S.Stop(State(), sid) == Some(S.Stopped(State(), meterStopWh))
    {
      if S.Stop(State(), sid).Some? {
        S.StopGives(State(), sid, meterIntervalMs);
      }
      if sid !in sessions {
        return false, 0;
      }
      if sessions[sid].status == S.COMPLETED && sessions[sid].finalMeterWh.Some? {
        return true, sessions[sid].finalMeterWh.value;
      }
      if sessions[sid].status != S.CHARGING {
        return false, 0;
      }
      var session := sessions[sid].(timer := false);
      session := session.(status := S.COMPLETED);
      session := session.(finalMeterWh := Some(session.meterWh));
      sessions := sessions[sid := session];
      if connectors[session.connector].status != S.OFFLINE {
        connectors := connectors[session.connector := connectors[session.connector].(status := S.AVAILABLE)];
      }
      return true, session.meterWh;
    }

    /** The synchronous part of `fail` and `disconnect`: afterwards the session does not charge. */
    method EndSession(sid: string, status: S.ConnectorStatus)
      requires Valid()
      modifies this`connectors, this`sessions
      ensures Valid() && State() == S.End(old(State()), sid, status)
      ensures sid in sessions ==> sessions[sid].status != S.CHARGING && !sessions[sid].timer
    {
      S.EndKeeps(State(), sid, status, meterIntervalMs);
      if sid !in sessions || sessions[sid].status != S.CHARGING {
        return;
      }
      var session := sessions[sid].(timer := false);
      session := session.(status := S.FAILED);
      sessions := sessions[sid := session];
      connectors := connectors[session.connector := connectors[session.connector].(status := status)];
    }

    /** `tick` up to its callback: the meter moves by at least one, and only that of this session. */
    method Tick(tick: nat, sid: string)
      requires Valid() && tick !in ticks && sid in sessions && sessions[sid].timer
      modifies this`sessions, this`ticks
      ensures Valid() && State() == S.TickStep(old(State()), tick, sid, meterIntervalMs)
      ensures sessions.Keys == old(sessions).Keys && sessions[sid].meterWh > old(sessions)[sid].meterWh
      ensures forall other :: other in sessions && other != sid ==> sessions[other] == old(sessions)[other]
    {
      S.TickGives(State(), tick, sid, meterIntervalMs);
      hide S.Inv, S.IncrementWh;
      var session := sessions[sid].(ticks := sessions[sid].ticks + 1);
      var incrementWh := S.IncrementWh(session.powerKw, meterIntervalMs);
      session := session.(meterWh := session.meterWh + incrementWh);
      sessions := sessions[sid := session];
      ticks := ticks[tick := S.Posting(sid)];
      assert State() == S.TickStep(old(State()), tick, sid, meterIntervalMs);
      hide S.TickStep;
    }

    /** The rest of a tick once its callback is answered, or the catch handler of the timer. */
    method FinishTick(tick: nat, ok: bool)
      requires Valid() && tick in ticks
      modifies this`connectors, this`sessions, this`ticks
      ensures Valid() && State() == S.CallbackStep(old(State()), tick, ok)
      ensures
        var sid := old(ticks)[tick].session;
        !ok && sid in sessions ==> sessions[sid].status == S.FAILED && connectors[sessions[sid].connector].status == S.FAULTED
    {
      S.CallbackKeeps(State(), tick, ok, meterIntervalMs);
      var sid := ticks[tick].session;
      if !ok {
        ticks := ticks - {tick};
        if sid in sessions {
          var session := sessions[sid].(timer := false);
          session := session.(status := S.FAILED);
          sessions := sessions[sid := session];
          connectors := connectors[session.connector := connectors[session.connector].(status := S.FAULTED)];
        }
        return;
      }
      if ticks[tick].Ending? || sid !in sessions || S.EndingOf(sessions[sid]).None? || sessions[sid].status != S.CHARGING {
        ticks := ticks - {tick};
        return;
      }
      EndSession(sid, S.EndingOf(sessions[sid]).value);
      ticks := ticks[tick := S.Ending(sid)];
    }

    /** `shutdown`: every timer is cleared, session by session, so no meter moves any more. */
    method Shutdown()
      requires Valid()
      modifies this`sessions
      ensures Valid() && State() == S.ShutdownStep(old(State()))
      ensures forall sid, tick :: S.TickStep(State(), tick, sid, meterIntervalMs) == State()
    {
      S.ShutdownGives(State(), meterIntervalMs);
      var left := sessions.Keys;
      while left != {}
        invariant sessions.Keys == old(sessions).Keys && left <= sessions.Keys
        invariant forall sid :: sid in sessions ==>
          sessions[sid] == if sid in left then old(sessions)[sid] else old(sessions)[sid].(timer := false)
        decreases left
      {
        var sid :| sid in left;
        sessions := sessions[sid := sessions[sid].(timer := false)];
        left := left - {sid};
      }
      assert State() == S.ShutdownStep(old(State()));
    }
  }
}
