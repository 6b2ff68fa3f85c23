/**
  From the charge point's meter to the billed energy: one OCPP session and the frame that one connection
  has in hand. `context.processing` hands over one frame at a time, the relay awaits its listener, and
  around that the HTTP callers of start and stop, disconnects, failures and all transactions of all
  other sessions run at any moment. OcppSockets puts several connections together.
 */
module OcppEndToEnd {
  import opened Common
  import opened SessionLifecycle
  import opened Charging
  import opened ChargingEffects
  import opened MeterSample
  import T = OcppTransactions

  /** The frame in hand. */
  datatype Frame =
    | NoFrame
    | StartWriting(known: T.Row, meterWh: nat)
    | Metering(known: T.Row, samples: seq<Sample>)
    | Rereading(meterWh: nat, samples: seq<Sample>)
    | MeterPublishing(known: T.Row, meterWh: nat, samples: seq<Sample>)
    | MeterRecording(known: T.Row, meterWh: nat, samples: seq<Sample>, session: Session)
    | StopWriting(known: T.Row, meterWh: nat)
    | StopPublishing(meterWh: nat)
    | StopHandling(meterWh: nat, session: Session)
    | StopCompleting(meterWh: nat)
    | StopNotifying(meterWh: nat)

  /** A caller of `stop` that invoked the gateway. */
  datatype Stopper = ReadingRow | MarkingRow | Waiting | Committing(meterWh: nat) | Over

  /** `claims` counts the callers of `start` that invoked the gateway and have not stored their remote start. */
  datatype State = State(db: Db, row: Option<T.Row>, claims: nat, frame: Frame, stops: map<nat, Stopper>)

  datatype Event =
    | Other(action: Action)
    | StartCall(user: nat, now: int)
    | RemoteStart
    | MarkFailed
    | StopCall(id: nat, user: nat, now: int)
    | StopRead(id: nat)
    | StopMark(id: nat)
    | StopFinds(id: nat)
    | StopGivesUp(id: nat)
    | StopCommit(id: nat, now: int)
    | StartFrame(meterWh: nat)
    | StartWrite
    | MeterFrame(samples: seq<Sample>)
    | MeterWrite
    | Reread
    | MeterPublish
    | MeterRecord
    | StopFrame(meterWh: nat)
    | StopWrite
    | StopPublish
    | StopHandle(now: int)
    | StopComplete(now: int, settled: bool)   // the payment may fail after the session was completed
    | StopNotify(waiter: nat)
    | Abort                                   // a query of the handler fails

  // ---------------------------------------------------------------- callers

  /** The charging transactions that only frames and stop calls run on this session. */
  predicate MetersSession(a: Action, sid: nat) {
    (a.Meter? || a.StopEvent? || a.Complete?) && a.sid == sid
  }

  function StartCallStep(s: State, sid: nat, user: nat, now: int): State {
    var prepared := PrepareStartTx(s.db, sid, user, now);
    if prepared.None? then s
    else s.(db := prepared.value.db, claims := s.claims + (if prepared.value.invokeGateway then 1 else 0))
  }

  function StopCallStep(s: State, sid: nat, id: nat, user: nat, now: int): State {
    var prepared := PrepareStopTx(s.db, sid, user, now);
    if prepared.None? || id in s.stops then s
    else s.(db := prepared.value.db,
            stops := if prepared.value.invokeGateway then s.stops[id := ReadingRow] else s.stops)
  }

  function At(s: State, id: nat, stopper: Stopper): State {
    s.(stops := s.stops[id := stopper])
  }

  /** The stop meter a completed row offers. */
  function Offered(row: Option<T.Row>): Option<nat> {
    if row.Some? && row.value.status == T.COMPLETED then row.value.stop else None
  }

  function StopReadStep(s: State, id: nat): State {
    if id in s.stops && s.stops[id].ReadingRow? then
      if s.row.None? then At(s, id, Over)
      else if Offered(s.row).Some? then At(s, id, Committing(Offered(s.row).value))
      else At(s, id, MarkingRow)
    else s
  }

  function StopMarkStep(s: State, id: nat): State {
    if id in s.stops && s.stops[id].MarkingRow? && s.row.Some? then
      At(s, id, Waiting).(row := Some(T.RemoteStopped(s.row.value)))
    else s
  }

  function StopFindsStep(s: State, id: nat): State {
    if id in s.stops && s.stops[id].Waiting? && Offered(s.row).Some? then At(s, id, Committing(Offered(s.row).value)) else s
  }

  function StopCommitStep(s: State, sid: nat, id: nat, now: int): State {
    if id in s.stops && s.stops[id].Committing? then
      At(s, id, Over).(db := Step(s.db, Complete(sid, s.stops[id].meterWh, now)))
    else s
  }

  // ---------------------------------------------------------------- frames

  function StartFrameStep(s: State, meterWh: nat): State {
    if !s.frame.NoFrame? || s.row.None? || s.row.value.status != T.REMOTE_START_PENDING then s
    else if s.row.value.start.Some? && meterWh < s.row.value.start.value then s
    else s.(frame := StartWriting(s.row.value, meterWh))
  }

  function StartWriteStep(s: State): State {
    if s.frame.StartWriting? && s.row.Some? then
      var written := T.Started(s.row.value, s.frame.meterWh);
      if T.StartMatches(s.row.value, s.frame.known) && T.MeterCheck(written) then s.(frame := NoFrame, row := Some(written))
      else s.(frame := NoFrame)
    else s
  }

  function MeterFrameStep(s: State, samples: seq<Sample>): State {
    if s.frame.NoFrame? && s.row.Some? && (s.row.value.status == T.ACTIVE || s.row.value.status == T.STOPPING) then
      s.(frame := Metering(s.row.value, samples))
    else s
  }

  function MeterWriteStep(s: State): State {
    if s.frame.Metering? && s.row.Some? then
      var meter := T.NextMeter(s.frame.known, s.frame.samples);
      if meter.None? then s.(frame := NoFrame)
      else
        var written := T.Metered(s.row.value, meter.value);
        if T.MeterMatches(s.row.value, s.frame.known) && T.MeterCheck(written) then
          s.(frame := Rereading(meter.value, s.frame.samples[1..]), row := Some(written))
        else s.(frame := NoFrame)
    else s
  }

  function RereadStep(s: State): State {
    if s.frame.Rereading? && s.row.Some? then
      s.(frame := MeterPublishing(s.row.value, s.frame.meterWh, s.frame.samples))
    else s
  }

  function MeterPublishStep(s: State, sid: nat): State {
    if s.frame.MeterPublishing? then
      if !Exists(s.db, sid) then s.(frame := NoFrame)
      else s.(frame := MeterRecording(s.frame.known, s.frame.meterWh, s.frame.samples, s.db.sessions[sid]))
    else s
  }

  /** `recordMeterValue`; when it throws, so does the handler. */
  function MeterRecordStep(s: State, sid: nat): State {
    if s.frame.MeterRecording? then
      var recorded := MeterTx(s.db, sid, s.frame.session, s.frame.meterWh);
      if recorded.None? then s.(frame := NoFrame)
      else s.(frame := Metering(s.frame.known, s.frame.samples), db := recorded.value)
    else s
  }

  function StopFrameStep(s: State, meterWh: nat): State {
    if !s.frame.NoFrame? || s.row.None? || s.row.value.status == T.COMPLETED || meterWh < T.Floor(s.row.value) then s
    else s.(frame := StopWriting(s.row.value, meterWh))
  }

  function StopWriteStep(s: State): State {
    if s.frame.StopWriting? && s.row.Some? then
      var written := T.Stopped(s.row.value, s.frame.meterWh);
      if !T.StopMatches(s.row.value, s.frame.known) then s.(frame := StopNotifying(s.frame.meterWh))
      else if !T.MeterCheck(written) then s.(frame := NoFrame)
      else s.(frame := StopPublishing(s.frame.meterWh), row := Some(written))
    else s
  }

  function StopPublishStep(s: State, sid: nat): State {
    if s.frame.StopPublishing? then
      if !Exists(s.db, sid) then s.(frame := NoFrame)
      else if s.db.sessions[sid].status == COMPLETED then s.(frame := StopNotifying(s.frame.meterWh))
      else s.(frame := StopHandling(s.frame.meterWh, s.db.sessions[sid]))
    else s
  }

  function StopHandleStep(s: State, sid: nat, now: int): State {
    if s.frame.StopHandling? then
      var stopping := StopEventTx(s.db, sid, s.frame.session, now);
      if stopping.None? then s.(frame := NoFrame)
      else s.(frame := StopCompleting(s.frame.meterWh), db := stopping.value)
    else s
  }

  function StopCompleteStep(s: State, sid: nat, now: int, settled: bool): State {
    if s.frame.StopCompleting? then
      var completed := CompleteTx(s.db, sid, s.frame.meterWh, now);
      if completed.None? then s.(frame := NoFrame)
      else s.(frame := if settled then StopNotifying(s.frame.meterWh) else NoFrame, db := completed.value)
    else s
  }

  /** `resolveStop`: settles the waiting stop call, if there is one. */
  function StopNotifyStep(s: State, waiter: nat): State {
    if s.frame.StopNotifying? then
      var ended := s.(frame := NoFrame);
      if waiter in s.stops && s.stops[waiter].Waiting? then At(ended, waiter, Committing(s.frame.meterWh)) else ended
    else s
  }

  /** The steps of callers and of everything around the connection. */
  function CallerStep(s: State, sid: nat, e: Event): State {
    match e
    case Other(action) => if MetersSession(action, sid) then s else s.(db := Step(s.db, action))
    case StartCall(user, now) => StartCallStep(s, sid, user, now)
    case RemoteStart => if s.claims > 0 then s.(claims := s.claims - 1, row := Some(T.RemoteStarted(s.row))) else s
    case MarkFailed => if s.row.Some? then s.(row := Some(T.MarkedFailed(s.row.value))) else s
    case StopCall(id, user, now) => StopCallStep(s, sid, id, user, now)
    case StopRead(id) => StopReadStep(s, id)
    case StopMark(id) => StopMarkStep(s, id)
    case StopFinds(id) => StopFindsStep(s, id)
    case StopGivesUp(id) => if id in s.stops && s.stops[id].Waiting? then At(s, id, Over) else s
    case StopCommit(id, now) => StopCommitStep(s, sid, id, now)
    case _ => s
  }

  /** The steps of the frame in hand. */
  function FrameStep(s: State, sid: nat, e: Event): State {
    match e
    case StartFrame(meterWh) => StartFrameStep(s, meterWh)
    case StartWrite => StartWriteStep(s)
    case MeterFrame(samples) => MeterFrameStep(s, samples)
    case MeterWrite => MeterWriteStep(s)
    case Reread => RereadStep(s)
    case MeterPublish => MeterPublishStep(s, sid)
    case MeterRecord => MeterRecordStep(s, sid)
    case StopFrame(meterWh) => StopFrameStep(s, meterWh)
    case StopWrite => StopWriteStep(s)
    case StopPublish => StopPublishStep(s, sid)
    case StopHandle(now) => StopHandleStep(s, sid, now)
    case StopComplete(now, settled) => StopCompleteStep(s, sid, now, settled)
    case StopNotify(waiter) => StopNotifyStep(s, waiter)
    case Abort => s.(frame := NoFrame)
    case _ => s
  }

  predicate OfFrame(e: Event) {
    || e.StartFrame? || e.StartWrite? || e.MeterFrame? || e.MeterWrite? || e.Reread? || e.MeterPublish? || e.MeterRecord?
    || e.StopFrame? || e.StopWrite? || e.StopPublish? || e.StopHandle? || e.StopComplete? || e.StopNotify? || e.Abort?
  }

  function Next(s: State, sid: nat, e: Event): State {
    if OfFrame(e) then FrameStep(s, sid, e) else CallerStep(s, sid, e)
  }

  function RunSystem(s: State, sid: nat, events: seq<Event>): State {
    if events == [] then s else Next(RunSystem(s, sid, events[..|events| - 1]), sid, events[|events| - 1])
  }

  // ---------------------------------------------------------------- the session row

  /** The last meter recorded for a session that is still open. */
  function Recorded(session: Session): Option<int> {
    if Active(session.status) then session.meterStopWh else None
  }

  predicate Below(recorded: Option<int>, meterWh: nat) {
    recorded.Some? ==> recorded.value <= meterWh
  }

  predicate SessionStays(before: Session, after: Session) {
    && SessionInv(after) && after.energyWh == before.energyWh
    && (Recorded(after) == Recorded(before) || Recorded(after) == None)
    && Rank(before.status) <= Rank(after.status)
  }

  /** A step of another session, or one that does not read a meter, leaves the energy alone. */
  lemma OtherStepKeepsEnergy(db: Db, a: Action, sid: nat)
    requires Exists(db, sid) && SessionInv(db.sessions[sid]) && (MetersSession(a, sid) ==> a.StopEvent?)
    ensures Exists(Step(db, a), sid)
    ensures SessionStays(db.sessions[sid], Step(db, a).sessions[sid])
  {
    RankNeverFallsInAStep(db, a, sid);
  }

  lemma MeterStepRecords(db: Db, sid: nat, known: Session, meterWh: nat)
    requires Exists(db, sid) && SessionInv(db.sessions[sid]) && MeterTx(db, sid, known, meterWh).Some?
    requires Below(Recorded(db.sessions[sid]), meterWh)
    ensures
      var before, after := db.sessions[sid], MeterTx(db, sid, known, meterWh).value.sessions;
      && sid < |after| && SessionInv(after[sid]) && before.energyWh <= after[sid].energyWh
      && after[sid].status == before.status
      && (after[sid] == before || (Recorded(after[sid]) == Some(meterWh) && before.status == CHARGING))
  {
  }

  lemma CompleteStepBills(db: Db, sid: nat, meterWh: nat, now: int)
    requires Exists(db, sid) && SessionInv(db.sessions[sid]) && Below(Recorded(db.sessions[sid]), meterWh)
    ensures
      var before, after := db.sessions[sid], Step(db, Complete(sid, meterWh, now)).sessions;
      && sid < |after| && SessionInv(after[sid]) && before.energyWh <= after[sid].energyWh
      && (after[sid] == before || after[sid].status == COMPLETED)
      && Rank(before.status) <= Rank(after[sid].status)
  {
  }

  // ---------------------------------------------------------------- when the energy falls

  predicate CanComplete(db: Db, sid: nat) {
    && Exists(db, sid)
    && var session := db.sessions[sid];
    && session.status == STOPPING && session.connector in db.connectors && session.user in db.users
  }

  /** A completion with a stop meter under the last recorded one, after energy was recorded. */
  predicate BillsBelow(db: Db, sid: nat, meterWh: nat) {
    CanComplete(db, sid) && !Below(Recorded(db.sessions[sid]), meterWh) && db.sessions[sid].energyWh > 0
  }

  /** A sample under the last recorded one; `recordMeterValue` compares it with the start meter only. */
  predicate RecordsBelow(db: Db, sid: nat, known: Session, meterWh: nat) {
    && Exists(db, sid) && db.sessions[sid].status == CHARGING && known.status == CHARGING
    && MeterTx(db, sid, known, meterWh).Some? && !Below(Recorded(db.sessions[sid]), meterWh)
  }

  predicate LowersEnergy(s: State, sid: nat, e: Event) {
    match e
    case MeterRecord => s.frame.MeterRecording? && RecordsBelow(s.db, sid, s.frame.session, s.frame.meterWh)
    case StopComplete(_, _) => s.frame.StopCompleting? && BillsBelow(s.db, sid, s.frame.meterWh)
    case StopCommit(id, _) => id in s.stops && s.stops[id].Committing? && BillsBelow(s.db, sid, s.stops[id].meterWh)
    case _ => false
  }

  lemma SampleLowersIff(db: Db, sid: nat, known: Session, meterWh: nat)
    requires Exists(db, sid) && SessionInv(db.sessions[sid]) && MeterTx(db, sid, known, meterWh).Some?
    ensures
      var after := MeterTx(db, sid, known, meterWh).value.sessions;
      && sid < |after| && SessionInv(after[sid])
      && (after[sid].energyWh < db.sessions[sid].energyWh <==> RecordsBelow(db, sid, known, meterWh))
  {
  }

  lemma CompletionLowersIff(db: Db, sid: nat, meterWh: nat, now: int)
    requires Exists(db, sid) && SessionInv(db.sessions[sid])
    ensures
      var after := Step(db, Complete(sid, meterWh, now)).sessions;
      && sid < |after| && SessionInv(after[sid])
      && (after[sid].energyWh < db.sessions[sid].energyWh <==> BillsBelow(db, sid, meterWh))
  {
  }

  /** A frame's step that neither records nor completes leaves the session's energy alone. */
  lemma OtherFrameStepKeepsEnergy(s: State, sid: nat, e: Event)
    requires Exists(s.db, sid) && SessionInv(s.db.sessions[sid])
    requires OfFrame(e) && !e.MeterRecord? && !e.StopComplete?
    ensures
      var after := FrameStep(s, sid, e).db;
      Exists(after, sid) && SessionInv(after.sessions[sid]) && after.sessions[sid].energyWh == s.db.sessions[sid].energyWh
  {
    if e.StopHandle? && s.frame.StopHandling? {
      OtherStepKeepsEnergy(s.db, StopEvent(sid, s.frame.session, e.now), sid);
    }
  }

  lemma CallerLowersIff(s: State, sid: nat, e: Event)
    requires Exists(s.db, sid) && SessionInv(s.db.sessions[sid]) && !OfFrame(e)
    ensures
      var after := CallerStep(s, sid, e).db;
      && Exists(after, sid) && SessionInv(after.sessions[sid])
      && (after.sessions[sid].energyWh < s.db.sessions[sid].energyWh <==> LowersEnergy(s, sid, e))
  {
    match e
    case Other(action) => if !MetersSession(action, sid) { OtherStepKeepsEnergy(s.db, action, sid); }
    case StartCall(user, now) => OtherStepKeepsEnergy(s.db, PrepareStart(sid, user, now), sid);
    case StopCall(id, user, now) => OtherStepKeepsEnergy(s.db, PrepareStop(sid, user, now), sid);
    case StopCommit(id, now) =>
      if id in s.stops && s.stops[id].Committing? { CompletionLowersIff(s.db, sid, s.stops[id].meterWh, now); }
    case _ =>
  }

  /** The energy of a session falls in exactly these steps, whatever the state of row, frames and callers. */
  lemma EnergyFallsIff(s: State, sid: nat, e: Event)
    requires Exists(s.db, sid) && SessionInv(s.db.sessions[sid])
    ensures
      var after := Next(s, sid, e).db;
      && Exists(after, sid) && SessionInv(after.sessions[sid])
      && (after.sessions[sid].energyWh < s.db.sessions[sid].energyWh <==> LowersEnergy(s, sid, e))
  {
    if !OfFrame(e) {
      CallerLowersIff(s, sid, e);
    } else if e.MeterRecord? {
      if s.frame.MeterRecording? && MeterTx(s.db, sid, s.frame.session, s.frame.meterWh).Some? {
        SampleLowersIff(s.db, sid, s.frame.session, s.frame.meterWh);
      }
    } else if e.StopComplete? {
      if s.frame.StopCompleting? { CompletionLowersIff(s.db, sid, s.frame.meterWh, e.now); }
    } else {
      OtherFrameStepKeepsEnergy(s, sid, e);
    }
  }
}
