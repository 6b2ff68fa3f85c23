/**
  The persisted OCPP transaction of one charging session and the handlers that read it first and write
  it later (apps/backend/src/ocpp/ocpp16-central-system.service.ts).

  Frames may come from any number of sockets at once. Every await of a handler is a place where any
  other step may run, so a handler carries the row it read and may find it stale when it writes. The
  remote start and remote stop writes carry no version check and may happen at any time.
 */
module OcppTransactions {
  import opened Common
  import opened MeterSample

  datatype TxStatus = REMOTE_START_PENDING | ACTIVE | STOPPING | COMPLETED | FAILED

  datatype Row = Row(status: TxStatus, version: nat, start: Option<nat>, last: Option<nat>, stop: Option<nat>)

  /** The database constraint ocpp_transactions_meter_monotonic. */
  predicate MeterCheck(row: Row) {
    && (row.last.Some? && row.start.Some? ==> row.last.value >= row.start.value)
    && (row.stop.Some? && row.start.Some? ==> row.stop.value >= row.start.value)
  }

  /** `lastMeterWh ?? meterStartWh ?? 0n` */
  function Floor(row: Row): nat {
    if row.last.Some? then row.last.value else if row.start.Some? then row.start.value else 0
  }

  // ---------------------------------------------------------------- row writes

  /** The upsert of `startSession`. */
  function RemoteStarted(row: Option<Row>): Row {
    match row
    case None => Row(REMOTE_START_PENDING, 1, None, None, None)
    case Some(known) => known.(status := REMOTE_START_PENDING, version := known.version + 1)
  }

  /** The unconditional update of `stopSession`. */
  function RemoteStopped(row: Row): Row {
    row.(status := STOPPING, version := row.version + 1)
  }

  /** `markTransactionFailed` */
  function MarkedFailed(row: Row): Row {
    if row.status == REMOTE_START_PENDING || row.status == STOPPING then
      row.(status := FAILED, version := row.version + 1)
    else row
  }

  predicate StartMatches(row: Row, known: Row) {
    row.status == REMOTE_START_PENDING && row.version == known.version
  }

  function Started(row: Row, meterStart: nat): Row {
    row.(status := ACTIVE, version := row.version + 1, start := Some(meterStart), last := Some(meterStart))
  }

  predicate MeterMatches(row: Row, known: Row) {
    row.version == known.version
  }

  function Metered(row: Row, meterWh: nat): Row {
    row.(version := row.version + 1, last := Some(meterWh))
  }

  predicate StopMatches(row: Row, known: Row) {
    (row.status == ACTIVE || row.status == STOPPING) && row.version == known.version
  }

  function Stopped(row: Row, meterStop: nat): Row {
    row.(status := COMPLETED, version := row.version + 1, last := Some(meterStop), stop := Some(meterStop))
  }

  // ---------------------------------------------------------------- handlers

  datatype Handler =
    | StartWriting(known: Row, meterWh: nat)
    | StartNotifying(meterWh: nat)
    | Metering(known: Row, samples: seq<Sample>)
    | Rereading(meterWh: nat, samples: seq<Sample>)
    | Publishing(known: Row, meterWh: nat, samples: seq<Sample>)
    | StopWriting(known: Row, meterWh: nat)
    | StopPublishing(meterWh: nat)
    | StopNotifying(meterWh: nat)
    | Answered(accepted: bool)

  /** What the relay was handed; its listener may still throw, and then so does the handler. */
  datatype Published = MeterValue(meterWh: nat) | StoppedAt(meterWh: nat)

  /** The calls of `resolveStart` and `resolveStop`. */
  datatype Notice = StartNotice(meterWh: nat) | StopNotice(meterWh: nat)

  datatype State = State(row: Option<Row>, handlers: map<nat, Handler>, published: seq<Published>, notices: seq<Notice>)

  datatype Event =
    | RemoteStart
    | RemoteStop
    | MarkFailed
    | StartFrame(id: nat, meterWh: nat)
    | StartWrite(id: nat)
    | StartNotify(id: nat)
    | MeterFrame(id: nat, samples: seq<Sample>)
    | MeterWrite(id: nat)
    | Reread(id: nat)
    | Publish(id: nat, ok: bool)
    | StopFrame(id: nat, meterWh: nat)
    | StopWrite(id: nat)
    | StopPublish(id: nat, ok: bool)
    | StopNotify(id: nat)

  function To(s: State, id: nat, handler: Handler): State {
    s.(handlers := s.handlers[id := handler])
  }

  function StartFrameStep(s: State, id: nat, meterWh: nat): State {
    if id in s.handlers then s
    else if s.row.None? || (s.row.value.status != REMOTE_START_PENDING && s.row.value.status != ACTIVE) then
      To(s, id, Answered(false))
    else if s.row.value.start.Some? && meterWh < s.row.value.start.value then To(s, id, Answered(false))
    else if s.row.value.status == ACTIVE then
      To(s, id, Answered(true)).(notices := s.notices + [StartNotice(meterWh)])
    else To(s, id, StartWriting(s.row.value, meterWh))
  }

  function StartWriteStep(s: State, id: nat): State {
    if id in s.handlers && s.handlers[id].StartWriting? && s.row.Some? then
      var handler := s.handlers[id];
      var written := Started(s.row.value, handler.meterWh);
      if StartMatches(s.row.value, handler.known) && MeterCheck(written) then
        To(s, id, StartNotifying(handler.meterWh)).(row := Some(written))
      else To(s, id, Answered(false))
    else s
  }

  function StartNotifyStep(s: State, id: nat): State {
    if id in s.handlers && s.handlers[id].StartNotifying? then
      To(s, id, Answered(true)).(notices := s.notices + [StartNotice(s.handlers[id].meterWh)])
    else s
  }

  function MeterFrameStep(s: State, id: nat, samples: seq<Sample>): State {
    if id in s.handlers then s
    else if s.row.Some? && (s.row.value.status == ACTIVE || s.row.value.status == STOPPING) then
      To(s, id, Metering(s.row.value, samples))
    else To(s, id, Answered(false))
  }

  /** The value the next sample of a frame reads, when the handler goes on to write it. */
  function NextMeter(known: Row, samples: seq<Sample>): Option<nat> {
    if samples == [] then None
    else
      var reading := Extract(samples[0], known.last);
      if reading.Extracted? && reading.meterWh >= Floor(known) then Some(reading.meterWh) else None
  }

  function MeterWriteStep(s: State, id: nat): State {
    if id in s.handlers && s.handlers[id].Metering? && s.row.Some? then
      var handler := s.handlers[id];
      var meter := NextMeter(handler.known, handler.samples);
      if handler.samples == [] then To(s, id, Answered(true))
      else if meter.None? then To(s, id, Answered(false))
      else
        var written := Metered(s.row.value, meter.value);
        if MeterMatches(s.row.value, handler.known) && MeterCheck(written) then
          To(s, id, Rereading(meter.value, handler.samples[1..])).(row := Some(written))
        else To(s, id, Answered(false))
    else s
  }

  function RereadStep(s: State, id: nat): State {
    if id in s.handlers && s.handlers[id].Rereading? && s.row.Some? then
      To(s, id, Publishing(s.row.value, s.handlers[id].meterWh, s.handlers[id].samples))
    else s
  }

  function PublishStep(s: State, id: nat, ok: bool): State {
    if id in s.handlers && s.handlers[id].Publishing? then
      var handler := s.handlers[id];
      To(s, id, if ok then Metering(handler.known, handler.samples) else Answered(false))
        .(published := s.published + [MeterValue(handler.meterWh)])
    else s
  }

  function StopFrameStep(s: State, id: nat, meterWh: nat): State {
    if id in s.handlers then s
    else if s.row.None? then To(s, id, Answered(false))
    else if s.row.value.status == COMPLETED then To(s, id, Answered(true))
    else if meterWh < Floor(s.row.value) then To(s, id, Answered(false))
    else To(s, id, StopWriting(s.row.value, meterWh))
  }

  /** A lost compare-and-set skips the event but still goes on to `resolveStop`. */
  function StopWriteStep(s: State, id: nat): State {
    if id in s.handlers && s.handlers[id].StopWriting? && s.row.Some? then
      var handler := s.handlers[id];
      var written := Stopped(s.row.value, handler.meterWh);
      if !StopMatches(s.row.value, handler.known) then To(s, id, StopNotifying(handler.meterWh))
      else if !MeterCheck(written) then To(s, id, Answered(false))
      else To(s, id, StopPublishing(handler.meterWh)).(row := Some(written))
    else s
  }

  function StopPublishStep(s: State, id: nat, ok: bool): State {
    if id in s.handlers && s.handlers[id].StopPublishing? then
      To(s, id, if ok then StopNotifying(s.handlers[id].meterWh) else Answered(false))
        .(published := s.published + [StoppedAt(s.handlers[id].meterWh)])
    else s
  }

  function StopNotifyStep(s: State, id: nat): State {
    if id in s.handlers && s.handlers[id].StopNotifying? then
      To(s, id, Answered(true)).(notices := s.notices + [StopNotice(s.handlers[id].meterWh)])
    else s
  }

  function RemoteStep(s: State, e: Event): State {
    if e.RemoteStart? then s.(row := Some(RemoteStarted(s.row)))
    else if s.row.None? then s
    else if e.RemoteStop? then s.(row := Some(RemoteStopped(s.row.value)))
    else s.(row := Some(MarkedFailed(s.row.value)))
  }

  function Next(s: State, e: Event): State {
    match e
    case RemoteStart => RemoteStep(s, e)
    case RemoteStop => RemoteStep(s, e)
    case MarkFailed => RemoteStep(s, e)
    case StartFrame(id, meterWh) => StartFrameStep(s, id, meterWh)
    case StartWrite(id) => StartWriteStep(s, id)
    case StartNotify(id) => StartNotifyStep(s, id)
    case MeterFrame(id, samples) => MeterFrameStep(s, id, samples)
    case MeterWrite(id) => MeterWriteStep(s, id)
    case Reread(id) => RereadStep(s, id)
    case Publish(id, ok) => PublishStep(s, id, ok)
    case StopFrame(id, meterWh) => StopFrameStep(s, id, meterWh)
    case StopWrite(id) => StopWriteStep(s, id)
    case StopPublish(id, ok) => StopPublishStep(s, id, ok)
    case StopNotify(id) => StopNotifyStep(s, id)
  }

  function Run(s: State, events: seq<Event>): State {
    if events == [] then s else Next(Run(s, events[..|events| - 1]), events[|events| - 1])
  }

  const EMPTY := State(None, map[], [], [])

  // ---------------------------------------------------------------- the invariant

  /** What every row that was ever stored satisfies. */
  predicate RowInv(row: Row) {
    && (row.start.Some? ==> row.last.Some? && row.start.value <= row.last.value)
    && (row.stop.Some? ==> row.last.Some?)
    && (row.stop.Some? && row.start.Some? ==> row.start.value <= row.stop.value)
    && (row.status == ACTIVE ==> row.start.Some?)
    && (row.status == COMPLETED ==> row.stop.Some? && row.stop.value <= row.last.value)
  }

  /** A snapshot is an older version, or it is the row itself. */
  predicate Snapshot(known: Row, row: Row) {
    RowInv(known) && (known.version < row.version || known == row)
  }

  predicate HandlerInv(handler: Handler, row: Row) {
    && (handler.StartWriting? || handler.Metering? || handler.Publishing? || handler.StopWriting? ==>
          Snapshot(handler.known, row))
    && (handler.StartWriting? && handler.known.start.Some? ==> handler.known.start.value <= handler.meterWh)
    && (handler.StopWriting? ==> Floor(handler.known) <= handler.meterWh)
  }

  ghost predicate Inv(s: State) {
    && (s.row.None? ==> forall id :: id in s.handlers ==> s.handlers[id].Answered?)
    && (s.row.Some? ==> RowInv(s.row.value) && forall id :: id in s.handlers ==> HandlerInv(s.handlers[id], s.row.value))
  }

  /** A write takes the next version, so it cannot make an old snapshot look current. */
  predicate Supersedes(before: Row, after: Row) {
    RowInv(after) && (after == before || after.version == before.version + 1)
  }

  lemma WriteKeepsHandlers(s: State, id: nat, handler: Handler, row: Row)
    requires Inv(s) && s.row.Some? && Supersedes(s.row.value, row) && HandlerInv(handler, row)
    ensures Inv(To(s, id, handler).(row := Some(row)))
  {
  }

  lemma RemoteKeepsInv(s: State, e: Event)
    requires Inv(s) && (e.RemoteStart? || e.RemoteStop? || e.MarkFailed?)
    ensures Inv(RemoteStep(s, e))
  {
  }

  lemma WritesKeepInv(s: State, id: nat)
    requires Inv(s)
    ensures Inv(StartWriteStep(s, id)) && Inv(MeterWriteStep(s, id)) && Inv(StopWriteStep(s, id))
  {
    if s.row.Some? && id in s.handlers {
      var row, handler := s.row.value, s.handlers[id];
      assert HandlerInv(handler, row);
      if handler.StartWriting? && StartMatches(row, handler.known) {
        var written := Started(row, handler.meterWh);
        if MeterCheck(written) { WriteKeepsHandlers(s, id, StartNotifying(handler.meterWh), written); }
      } else if handler.StopWriting? && StopMatches(row, handler.known) {
        var written := Stopped(row, handler.meterWh);
        if MeterCheck(written) { WriteKeepsHandlers(s, id, StopPublishing(handler.meterWh), written); }
      } else if handler.Metering? {
        MeterWriteKeepsInv(s, id);
      }
    }
  }

  lemma MeterWriteKeepsInv(s: State, id: nat)
    requires Inv(s) && s.row.Some? && id in s.handlers && s.handlers[id].Metering?
    ensures Inv(MeterWriteStep(s, id))
  {
  }

  lemma NextKeepsInv(s: State, e: Event)
    requires Inv(s)
    ensures Inv(Next(s, e))
  {
    match e
    case RemoteStart => RemoteKeepsInv(s, e);
    case RemoteStop => RemoteKeepsInv(s, e);
    case MarkFailed => RemoteKeepsInv(s, e);
    case StartWrite(id) => WritesKeepInv(s, id);
    case MeterWrite(id) => WritesKeepInv(s, id);
    case StopWrite(id) => WritesKeepInv(s, id);
    case _ =>
  }

  /**
    Meter order: after any run of any frames on any sockets with any remote starts, stops and failures
    in between, the start meter is not above the last meter, and a completed row has a stop meter that
    is not above the last meter either.
   */
  lemma {:induction false} MetersStayOrdered(events: seq<Event>)
    ensures Inv(Run(EMPTY, events))
    ensures
      var row := Run(EMPTY, events).row;
      row.Some? ==>
        && (row.value.start.Some? && row.value.last.Some? ==> row.value.start.value <= row.value.last.value)
        && (row.value.status == COMPLETED ==>
              row.value.stop.Some? && row.value.last.Some? && row.value.stop.value <= row.value.last.value)
  {
    if events != [] {
      MetersStayOrdered(events[..|events| - 1]);
      NextKeepsInv(Run(EMPTY, events[..|events| - 1]), events[|events| - 1]);
    }
  }
}
