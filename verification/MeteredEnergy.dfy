/** The energy of an OCPP session over whole runs of OcppEndToEnd: never negative, never falling. */
module MeteredEnergy {
  import opened Common
  import opened SessionLifecycle
  import opened Charging
  import opened ChargingEffects
  import opened MeterSample
  import T = OcppTransactions
  import opened OcppEndToEnd

  /** The remote start is issued once: by the caller that moved the session to STARTING. */
  predicate ClaimsInv(s: State, session: Session) {
    && s.claims + (if s.row.Some? then 1 else 0) <= 1
    && (s.claims > 0 || s.row.Some? ==> Rank(session.status) >= Rank(STARTING))
  }

  predicate RowFits(row: T.Row, recorded: Option<int>) {
    && T.RowInv(row)
    && (row.status == T.REMOTE_START_PENDING ==> row.last.None?)
    && (row.status == T.COMPLETED ==> row.stop == row.last)
    && (recorded.Some? ==> row.last.Some? && recorded.value <= row.last.value)
  }

  /** A snapshot taken while the transaction was not completed. */
  predicate OpenSnapshot(known: T.Row, row: T.Row) {
    T.Snapshot(known, row) && known.status != T.COMPLETED && row.status != T.COMPLETED
  }

  predicate Metered(row: T.Row) {
    row.status != T.REMOTE_START_PENDING && row.status != T.COMPLETED
  }

  predicate Reported(meterWh: nat, row: T.Row, recorded: Option<int>) {
    Metered(row) && row.last.Some? && meterWh <= row.last.value && Below(recorded, meterWh)
  }

  /** A stop meter in hand is not below any meter read so far. */
  predicate StopsAbove(meterWh: nat, row: T.Row, recorded: Option<int>) {
    Below(recorded, meterWh) && (row.last.Some? ==> row.last.value <= meterWh)
  }

  predicate FrameFits(frame: Frame, row: T.Row, recorded: Option<int>) {
    match frame
    case NoFrame => true
    case StartWriting(known, meterWh) => OpenSnapshot(known, row) && (known.start.Some? ==> known.start.value <= meterWh)
    case Metering(known, samples) => OpenSnapshot(known, row) && Metered(row)
    case Rereading(meterWh, samples) => Reported(meterWh, row, recorded)
    case MeterPublishing(known, meterWh, samples) => OpenSnapshot(known, row) && Reported(meterWh, row, recorded)
    case MeterRecording(known, meterWh, samples, session) => OpenSnapshot(known, row) && Reported(meterWh, row, recorded)
    case StopWriting(known, meterWh) =>
      OpenSnapshot(known, row) && known.last == row.last && known.start == row.start && T.Floor(known) <= meterWh
      && Below(recorded, meterWh)
    case StopPublishing(meterWh) => StopsAbove(meterWh, row, recorded)
    case StopHandling(meterWh, session) => StopsAbove(meterWh, row, recorded)
    case StopCompleting(meterWh) => StopsAbove(meterWh, row, recorded)
    case StopNotifying(meterWh) => StopsAbove(meterWh, row, recorded)
  }

  predicate StopperFits(stopper: Stopper, session: Session) {
    && Rank(session.status) >= Rank(STOPPING)
    && (stopper.Committing? ==> Below(Recorded(session), stopper.meterWh))
  }

  ghost predicate StoppersFit(stops: map<nat, Stopper>, session: Session) {
    forall id :: id in stops ==> StopperFits(stops[id], session)
  }

  predicate RowAndFrame(row: Option<T.Row>, frame: Frame, session: Session) {
    if row.None? then frame.NoFrame? && Recorded(session).None?
    else RowFits(row.value, Recorded(session)) && FrameFits(frame, row.value, Recorded(session))
  }

  ghost predicate Inv(s: State, sid: nat) {
    && Exists(s.db, sid)
    && var session := s.db.sessions[sid];
    && SessionInv(session)
    && ClaimsInv(s, session)
    && RowAndFrame(s.row, s.frame, session)
    && StoppersFit(s.stops, session)
  }

  function Energy(s: State, sid: nat): int
    requires Exists(s.db, sid)
  {
    s.db.sessions[sid].energyWh
  }

  /** What a step owes: the invariant, and energy that has not fallen. */
  ghost predicate Keeps(s: State, next: State, sid: nat)
    requires Exists(s.db, sid)
  {
    Inv(next, sid) && Energy(s, sid) <= Energy(next, sid)
  }

  // ---------------------------------------------------------------- the session moves

  /** The session takes a step that reads no meter; row, frame and stop calls stay. */
  lemma SessionStepKeeps(s: State, sid: nat, db: Db)
    requires Inv(s, sid) && Exists(db, sid) && SessionStays(s.db.sessions[sid], db.sessions[sid])
    ensures Keeps(s, s.(db := db), sid)
  {
  }

  lemma FrameForgets(s: State, before: Session, after: Session)
    requires RowAndFrame(s.row, s.frame, before) && (Recorded(after) == Recorded(before) || Recorded(after) == None)
    ensures RowAndFrame(s.row, s.frame, after)
  {
  }

  lemma OtherKeeps(s: State, sid: nat, a: Action)
    requires Inv(s, sid) && (MetersSession(a, sid) ==> a.StopEvent?)
    ensures Keeps(s, s.(db := Step(s.db, a)), sid)
  {
    OtherStepKeepsEnergy(s.db, a, sid);
    SessionStepKeeps(s, sid, Step(s.db, a));
  }

  lemma StartCallKeeps(s: State, sid: nat, user: nat, now: int)
    requires Inv(s, sid)
    ensures Keeps(s, StartCallStep(s, sid, user, now), sid)
  {
  }

  lemma StopCallKeeps(s: State, sid: nat, id: nat, user: nat, now: int)
    requires Inv(s, sid)
    ensures Keeps(s, StopCallStep(s, sid, id, user, now), sid)
  {
  }

  lemma StopCommitKeeps(s: State, sid: nat, id: nat, now: int)
    requires Inv(s, sid)
    ensures Keeps(s, StopCommitStep(s, sid, id, now), sid)
  {
    if id in s.stops && s.stops[id].Committing? {
      assert StopperFits(s.stops[id], s.db.sessions[sid]);
      CompletionKeeps(s, sid, s.stops[id].meterWh, now);
    }
  }

  lemma CompletionKeeps(s: State, sid: nat, meterWh: nat, now: int)
    requires Inv(s, sid) && Below(Recorded(s.db.sessions[sid]), meterWh)
    ensures Keeps(s, s.(db := Step(s.db, Complete(sid, meterWh, now))), sid)
  {
    var db := Step(s.db, Complete(sid, meterWh, now));
    CompleteStepBills(s.db, sid, meterWh, now);
    FrameForgets(s, s.db.sessions[sid], db.sessions[sid]);
    forall id | id in s.stops ensures StopperFits(s.stops[id], db.sessions[sid]) {
      assert StopperFits(s.stops[id], s.db.sessions[sid]);
    }
  }

  // ---------------------------------------------------------------- the row moves

  lemma RemoteStartKeeps(s: State, sid: nat)
    requires Inv(s, sid)
    ensures Keeps(s, CallerStep(s, sid, RemoteStart), sid)
  {
  }

  lemma MarkFailedKeeps(s: State, sid: nat)
    requires Inv(s, sid)
    ensures Keeps(s, CallerStep(s, sid, MarkFailed), sid)
  {
  }

  lemma StopMarkKeeps(s: State, sid: nat, id: nat)
    requires Inv(s, sid)
    ensures Keeps(s, StopMarkStep(s, id), sid)
  {
  }

  /** A stop call moves on with nothing, or with the stop meter of the completed row. */
  lemma StopCallMovesOn(s: State, sid: nat, id: nat)
    requires Inv(s, sid)
    ensures Keeps(s, StopReadStep(s, id), sid) && Keeps(s, StopFindsStep(s, id), sid)
  {
    if id in s.stops {
      assert StopperFits(s.stops[id], s.db.sessions[sid]);
    }
  }

  lemma StopGivesUpKeeps(s: State, sid: nat, id: nat)
    requires Inv(s, sid)
    ensures Keeps(s, CallerStep(s, sid, StopGivesUp(id)), sid)
  {
  }

  // ---------------------------------------------------------------- frames

  lemma StartFrameKeeps(s: State, sid: nat, meterWh: nat)
    requires Inv(s, sid)
    ensures Keeps(s, StartFrameStep(s, meterWh), sid) && Keeps(s, StartWriteStep(s), sid)
  {
  }

  lemma MeterFrameKeeps(s: State, sid: nat, samples: seq<Sample>)
    requires Inv(s, sid)
    ensures Keeps(s, MeterFrameStep(s, samples), sid)
  {
  }

  lemma MeterWriteKeeps(s: State, sid: nat)
    requires Inv(s, sid)
    ensures Keeps(s, MeterWriteStep(s), sid)
  {
  }

  lemma MeterPublishKeeps(s: State, sid: nat)
    requires Inv(s, sid)
    ensures Keeps(s, RereadStep(s), sid) && Keeps(s, MeterPublishStep(s, sid), sid)
  {
  }

  lemma MeterRecordKeeps(s: State, sid: nat)
    requires Inv(s, sid)
    ensures Keeps(s, MeterRecordStep(s, sid), sid)
  {
    if s.frame.MeterRecording? {
      var recorded := MeterTx(s.db, sid, s.frame.session, s.frame.meterWh);
      if recorded.Some? {
        MeterStepRecords(s.db, sid, s.frame.session, s.frame.meterWh);
        forall id | id in s.stops ensures StopperFits(s.stops[id], recorded.value.sessions[sid]) {
          assert StopperFits(s.stops[id], s.db.sessions[sid]);
        }
      }
    }
  }

  lemma StopFrameKeeps(s: State, sid: nat, meterWh: nat)
    requires Inv(s, sid)
    ensures Keeps(s, StopFrameStep(s, meterWh), sid)
  {
  }

  lemma StopWriteKeeps(s: State, sid: nat)
    requires Inv(s, sid)
    ensures Keeps(s, StopWriteStep(s), sid)
  {
  }

  lemma StopPublishKeeps(s: State, sid: nat)
    requires Inv(s, sid)
    ensures Keeps(s, StopPublishStep(s, sid), sid)
  {
  }

  lemma StopHandleKeeps(s: State, sid: nat, now: int)
    requires Inv(s, sid)
    ensures Keeps(s, StopHandleStep(s, sid, now), sid)
  {
    if s.frame.StopHandling? {
      OtherKeeps(s, sid, StopEvent(sid, s.frame.session, now));
    }
  }

  lemma StopCompleteKeeps(s: State, sid: nat, now: int, settled: bool)
    requires Inv(s, sid)
    ensures Keeps(s, StopCompleteStep(s, sid, now, settled), sid)
  {
    if s.frame.StopCompleting? {
      CompletionKeeps(s, sid, s.frame.meterWh, now);
      EndingFrameKeeps(s, sid, NoFrame);
      var completed := s.(db := Step(s.db, Complete(sid, s.frame.meterWh, now)));
      EndingFrameKeeps(completed, sid, if settled then StopNotifying(s.frame.meterWh) else NoFrame);
      hide Inv;
    }
  }

  lemma EndingFrameKeeps(s: State, sid: nat, frame: Frame)
    requires Inv(s, sid) && s.frame.StopCompleting? && (frame.NoFrame? || frame == StopNotifying(s.frame.meterWh))
    ensures Inv(s.(frame := frame), sid)
  {
  }

  lemma StopNotifyKeeps(s: State, sid: nat, waiter: nat)
    requires Inv(s, sid)
    ensures Keeps(s, StopNotifyStep(s, waiter), sid)
  {
  }

  lemma AbortKeeps(s: State, sid: nat)
    requires Inv(s, sid)
    ensures Keeps(s, s.(frame := NoFrame), sid)
  {
  }

  lemma CallerStepKeeps(s: State, sid: nat, e: Event)
    requires Inv(s, sid)
    ensures Keeps(s, CallerStep(s, sid, e), sid)
  {
    hide Inv;
    match e
    case Other(action) => if !MetersSession(action, sid) { OtherKeeps(s, sid, action); }
    case StartCall(user, now) => StartCallKeeps(s, sid, user, now);
    case RemoteStart => RemoteStartKeeps(s, sid);
    case MarkFailed => MarkFailedKeeps(s, sid);
    case StopCall(id, user, now) => StopCallKeeps(s, sid, id, user, now);
    case StopRead(id) => StopCallMovesOn(s, sid, id);
    case StopMark(id) => StopMarkKeeps(s, sid, id);
    case StopFinds(id) => StopCallMovesOn(s, sid, id);
    case StopGivesUp(id) => StopGivesUpKeeps(s, sid, id);
    case StopCommit(id, now) => StopCommitKeeps(s, sid, id, now);
    case _ =>
  }

  lemma FrameStepKeeps(s: State, sid: nat, e: Event)
    requires Inv(s, sid) && OfFrame(e)
    ensures Keeps(s, FrameStep(s, sid, e), sid)
  {
    hide Inv, StartFrameStep, StartWriteStep, MeterFrameStep, MeterWriteStep, RereadStep, MeterPublishStep, MeterRecordStep;
    hide StopFrameStep, StopWriteStep, StopPublishStep, StopHandleStep, StopCompleteStep, StopNotifyStep;
    match e
    case StartFrame(meterWh) => StartFrameKeeps(s, sid, meterWh);
    case StartWrite => StartFrameKeeps(s, sid, 0);
    case MeterFrame(samples) => MeterFrameKeeps(s, sid, samples);
    case MeterWrite => MeterWriteKeeps(s, sid);
    case Reread => MeterPublishKeeps(s, sid);
    case MeterPublish => MeterPublishKeeps(s, sid);
    case MeterRecord => MeterRecordKeeps(s, sid);
    case StopFrame(meterWh) => StopFrameKeeps(s, sid, meterWh);
    case StopWrite => StopWriteKeeps(s, sid);
    case StopPublish => StopPublishKeeps(s, sid);
    case StopHandle(now) => StopHandleKeeps(s, sid, now);
    case StopComplete(now, settled) => StopCompleteKeeps(s, sid, now, settled);
    case StopNotify(waiter) => StopNotifyKeeps(s, sid, waiter);
    case Abort => AbortKeeps(s, sid);
  }

  lemma NextKeeps(s: State, sid: nat, e: Event)
    requires Inv(s, sid)
    ensures Keeps(s, Next(s, sid, e), sid)
  {
    if OfFrame(e) {
      FrameStepKeeps(s, sid, e);
    } else {
      CallerStepKeeps(s, sid, e);
    }
  }

  // ---------------------------------------------------------------- whole runs

  /** A session that was created and not started yet, with no OCPP transaction; all other tables are free. */
  predicate JustCreated(s: State, sid: nat) {
    && Exists(s.db, sid)
    && var session := s.db.sessions[sid];
    && session == Session(session.user, session.connector, session.key, PENDING, session.version, None, None, 0)
    && s.row.None? && s.claims == 0 && s.frame.NoFrame? && s.stops == map[]
  }

  lemma {:induction false} InvHolds(s: State, sid: nat, events: seq<Event>)
    requires JustCreated(s, sid)
    ensures Inv(RunSystem(s, sid, events), sid)
  {
    if events != [] {
      InvHolds(s, sid, events[..|events| - 1]);
      NextKeeps(RunSystem(s, sid, events[..|events| - 1]), sid, events[|events| - 1]);
    }
  }

  lemma {:induction false} RunConcat(s: State, sid: nat, events: seq<Event>, later: seq<Event>)
    ensures RunSystem(s, sid, events + later) == RunSystem(RunSystem(s, sid, events), sid, later)
    decreases |later|
  {
    if later == [] {
      assert events + later == events;
    } else {
      var n := |later| - 1;
      RunConcat(s, sid, events, later[..n]);
      assert (events + later)[..|events + later| - 1] == events + later[..n];
    }
  }

  lemma {:induction false} EnergyRises(s: State, sid: nat, events: seq<Event>)
    requires Inv(s, sid)
    ensures Keeps(s, RunSystem(s, sid, events), sid)
  {
    if events != [] {
      EnergyRises(s, sid, events[..|events| - 1]);
      NextKeeps(RunSystem(s, sid, events[..|events| - 1]), sid, events[|events| - 1]);
    }
  }

  /**
    End to end: at every moment of every run the session's energy is not negative and not below what it
    was at any earlier moment. In particular the billed energy of a completed session is at least every
    energy that was metered before.
   */
  lemma EnergyNeverFalls(s: State, sid: nat, events: seq<Event>, later: seq<Event>)
    requires JustCreated(s, sid)
    ensures Exists(RunSystem(s, sid, events).db, sid) && Exists(RunSystem(s, sid, events + later).db, sid)
    ensures 0 <= Energy(RunSystem(s, sid, events), sid) <= Energy(RunSystem(s, sid, events + later), sid)
  {
    InvHolds(s, sid, events);
    RunConcat(s, sid, events, later);
    EnergyRises(RunSystem(s, sid, events), sid, later);
  }
}
