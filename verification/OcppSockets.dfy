/**
  Several connections of one charge point at once: each has one frame in hand, and all of them meet in
  the transaction row and in the session. When does the energy of the session fall?
 */
module OcppSockets {
  import opened Charging
  import opened ChargingEffects
  import opened Common
  import opened MeterSample
  import opened OcppEndToEnd
  import opened SessionLifecycle
  import M = MeteredEnergy
  import O = OcppMeterOrder
  import T = OcppTransactions

  /**
    `stored` are the meters written to the row so far, in order; `at` says which of them each connection
    wrote last, and `recordedAt` which of them the session recorded last.
   */
  datatype System = System(
    db: Db, row: Option<T.Row>, claims: nat, frames: map<nat, Frame>, stops: map<nat, Stopper>,
    stored: seq<nat>, at: map<nat, nat>, recordedAt: Option<nat>)

  datatype SocketEvent = On(socket: nat, event: Event)

  /** What one connection sees. */
  function View(s: System, socket: nat): State {
    State(s.db, s.row, s.claims, if socket in s.frames then s.frames[socket] else NoFrame, s.stops)
  }

  /** A step of a frame that writes a meter to the row. */
  predicate Writes(view: State, sid: nat, e: Event) {
    OfFrame(e) && FrameStep(view, sid, e).row != view.row
  }

  predicate Records(view: State, sid: nat, e: Event) {
    e.MeterRecord? && view.frame.MeterRecording? && FrameStep(view, sid, e).db != view.db
  }

  function LastMeter(row: Option<T.Row>): nat {
    if row.Some? then T.Floor(row.value) else 0
  }

  function Next(s: System, sid: nat, e: SocketEvent): System {
    var view := View(s, e.socket);
    var after := OcppEndToEnd.Next(view, sid, e.event);
    var wrote := Writes(view, sid, e.event);
    System(after.db, after.row, after.claims, s.frames[e.socket := after.frame], after.stops,
          if wrote then s.stored + [LastMeter(after.row)] else s.stored,
          if wrote then s.at[e.socket := |s.stored|] else s.at,
          if Records(view, sid, e.event) && e.socket in s.at then Some(s.at[e.socket]) else s.recordedAt)
  }

  function Run(s: System, sid: nat, events: seq<SocketEvent>): System {
    if events == [] then s else Next(Run(s, sid, events[..|events| - 1]), sid, events[|events| - 1])
  }

  // ---------------------------------------------------------------- the invariant

  predicate Sorted(stored: seq<nat>) {
    forall i, j :: 0 <= i <= j < |stored| ==> stored[i] <= stored[j]
  }

  /** The row's last meter is the one stored last. */
  predicate RowFits(row: Option<T.Row>, stored: seq<nat>) {
    if row.None? then stored == []
    else
      && T.RowInv(row.value)
      && (row.value.status == T.REMOTE_START_PENDING ==> row.value.last.None?)
      && row.value.last == if stored == [] then None else Some(stored[|stored| - 1])
  }

  predicate IsStarted(row: Option<T.Row>) {
    row.Some? && row.value.status != T.REMOTE_START_PENDING
  }

  predicate InHand(meterWh: nat, stored: seq<nat>, at: Option<nat>) {
    at.Some? && at.value < |stored| && stored[at.value] == meterWh
  }

  /** A meter that a frame carries away from its write is the one its connection stored last. */
  predicate FrameFits(frame: Frame, row: Option<T.Row>, stored: seq<nat>, at: Option<nat>) {
    if row.None? then frame.NoFrame?
    else match frame
      case NoFrame => true
      case StartWriting(known, meterWh) => T.Snapshot(known, row.value)
      case Metering(known, _) => T.Snapshot(known, row.value) && IsStarted(row)
      case Rereading(meterWh, _) => IsStarted(row) && InHand(meterWh, stored, at)
      case MeterPublishing(known, meterWh, _) => T.Snapshot(known, row.value) && IsStarted(row) && InHand(meterWh, stored, at)
      case MeterRecording(known, meterWh, _, _) => T.Snapshot(known, row.value) && IsStarted(row) && InHand(meterWh, stored, at)
      case StopWriting(known, meterWh) => T.Snapshot(known, row.value) && T.Floor(known) <= meterWh
      case StopPublishing(meterWh) => InHand(meterWh, stored, at)
      case StopHandling(meterWh, _) => InHand(meterWh, stored, at)
      case StopCompleting(meterWh) => InHand(meterWh, stored, at)
      case StopNotifying(_) => true
  }

  function AtOf(s: System, socket: nat): Option<nat> {
    if socket in s.at then Some(s.at[socket]) else None
  }

  predicate SessionFits(s: System, session: Session) {
    && SessionInv(session)
    && M.ClaimsInv(View(s, 0), session)
    && (Recorded(session).Some? ==>
          && s.recordedAt.Some? && s.recordedAt.value < |s.stored|
          && s.stored[s.recordedAt.value] == Recorded(session).value)
  }

  ghost predicate Inv(s: System, sid: nat) {
    && Exists(s.db, sid) && SessionFits(s, s.db.sessions[sid])
    && RowFits(s.row, s.stored) && Sorted(s.stored)
    && (forall socket :: FrameFits(View(s, socket).frame, s.row, s.stored, AtOf(s, socket)))
  }

  // ---------------------------------------------------------------- one frame

  /** The row takes the next version, or stays; a started one is not started again. */
  predicate Supersedes(before: Option<T.Row>, after: Option<T.Row>) {
    before.Some? ==> after.Some? && T.Supersedes(before.value, after.value) && (IsStarted(before) ==> IsStarted(after))
  }

  /** What a frame's step leaves behind for its own connection. */
  ghost predicate Fits(view: State, after: State, stored: seq<nat>, at: Option<nat>) {
    && Supersedes(view.row, after.row) && (view.row.None? ==> after.row.None?)
    && after.claims == view.claims
    && if after.row == view.row then FrameFits(after.frame, after.row, stored, at)
       else
         var longer := stored + [LastMeter(after.row)];
         && RowFits(after.row, longer) && (stored != [] ==> stored[|stored| - 1] <= LastMeter(after.row))
         && FrameFits(after.frame, after.row, longer, Some(|stored|))
  }

  lemma StartsFit(view: State, meterWh: nat, stored: seq<nat>, at: Option<nat>)
    requires RowFits(view.row, stored) && FrameFits(view.frame, view.row, stored, at)
    ensures Fits(view, StartFrameStep(view, meterWh), stored, at)
    ensures Fits(view, StartWriteStep(view), stored, at)
  {
  }

  lemma MeterWriteFits(view: State, stored: seq<nat>, at: Option<nat>)
    requires RowFits(view.row, stored) && FrameFits(view.frame, view.row, stored, at)
    ensures Fits(view, MeterWriteStep(view), stored, at)
  {
  }

  lemma MetersFit(view: State, sid: nat, samples: seq<Sample>, stored: seq<nat>, at: Option<nat>)
    requires RowFits(view.row, stored) && FrameFits(view.frame, view.row, stored, at)
    ensures Fits(view, MeterFrameStep(view, samples), stored, at)
    ensures Fits(view, RereadStep(view), stored, at)
    ensures Fits(view, MeterPublishStep(view, sid), stored, at)
    ensures Fits(view, MeterRecordStep(view, sid), stored, at)
  {
  }

  lemma StopsFit(view: State, meterWh: nat, stored: seq<nat>, at: Option<nat>)
    requires RowFits(view.row, stored) && FrameFits(view.frame, view.row, stored, at)
    ensures Fits(view, StopFrameStep(view, meterWh), stored, at)
    ensures Fits(view, StopWriteStep(view), stored, at)
  {
  }

  lemma StopsMoveOn(
      view: State, sid: nat, now: int, settled: bool, waiter: nat, stored: seq<nat>, at: Option<nat>)
    requires RowFits(view.row, stored) && FrameFits(view.frame, view.row, stored, at)
    ensures Fits(view, StopPublishStep(view, sid), stored, at)
    ensures Fits(view, StopHandleStep(view, sid, now), stored, at)
    ensures Fits(view, StopCompleteStep(view, sid, now, settled), stored, at)
    ensures Fits(view, StopNotifyStep(view, waiter), stored, at)
  {
  }

  lemma FrameStepFits(view: State, sid: nat, e: Event, stored: seq<nat>, at: Option<nat>)
    requires RowFits(view.row, stored) && FrameFits(view.frame, view.row, stored, at)
    ensures Fits(view, FrameStep(view, sid, e), stored, at)
  {
    if e.StartFrame? || e.StartWrite? {
      StartsFit(view, if e.StartFrame? then e.meterWh else 0, stored, at);
    } else if e.MeterWrite? {
      MeterWriteFits(view, stored, at);
    } else if e.MeterFrame? || e.Reread? || e.MeterPublish? || e.MeterRecord? {
      MetersFit(view, sid, if e.MeterFrame? then e.samples else [], stored, at);
    } else if e.StopFrame? || e.StopWrite? {
      StopsFit(view, if e.StopFrame? then e.meterWh else 0, stored, at);
    } else {
      StopsMoveOn(view, sid, if e.StopHandle? || e.StopComplete? then e.now else 0, e.StopComplete? && e.settled,
                  if e.StopNotify? then e.waiter else 0, stored, at);
    }
  }

  /** Callers leave the frame and the meters of the row alone. */
  lemma CallerStepFits(view: State, sid: nat, e: Event, stored: seq<nat>)
    requires !OfFrame(e) && RowFits(view.row, stored) && (view.row.Some? ==> view.claims == 0)
    ensures
      var after := CallerStep(view, sid, e);
      after.frame == view.frame && RowFits(after.row, stored) && Supersedes(view.row, after.row)
  {
  }

  // ---------------------------------------------------------------- the session

  lemma SampleIsRecorded(db: Db, sid: nat, known: Session, meterWh: nat)
    requires Exists(db, sid) && SessionInv(db.sessions[sid]) && MeterTx(db, sid, known, meterWh).Some?
    ensures
      var after := MeterTx(db, sid, known, meterWh).value;
      && Exists(after, sid)
      && (after == db || Recorded(after.sessions[sid]) == Some(meterWh))
      && after.sessions[sid].status == db.sessions[sid].status
  {
  }

  lemma CompletionForgets(db: Db, sid: nat, meterWh: nat, now: int)
    requires Exists(db, sid)
    ensures
      var after := Step(db, Complete(sid, meterWh, now));
      && Exists(after, sid)
      && (after.sessions[sid] == db.sessions[sid] || Recorded(after.sessions[sid]).None?)
      && Rank(db.sessions[sid].status) <= Rank(after.sessions[sid].status)
  {
    RankNeverFallsInAStep(db, Complete(sid, meterWh, now), sid);
  }

  /** The recorded meter is the one in hand after a recording, and the old one or none after any other step. */
  ghost predicate RecordedMoves(view: State, after: State, sid: nat, e: Event) {
    && Exists(view.db, sid) && Exists(after.db, sid)
    && var before, next := view.db.sessions[sid], after.db.sessions[sid];
    && Rank(before.status) <= Rank(next.status)
    && if Records(view, sid, e) then Recorded(next) == Some(view.frame.meterWh)
       else Recorded(next) == Recorded(before) || Recorded(next).None?
  }

  lemma RecordingRecords(view: State, sid: nat)
    requires Exists(view.db, sid) && SessionInv(view.db.sessions[sid])
    ensures RecordedMoves(view, MeterRecordStep(view, sid), sid, MeterRecord)
  {
    if view.frame.MeterRecording? && MeterTx(view.db, sid, view.frame.session, view.frame.meterWh).Some? {
      SampleIsRecorded(view.db, sid, view.frame.session, view.frame.meterWh);
      hide MeterTx;
    }
  }

  lemma FrameRecords(view: State, sid: nat, e: Event)
    requires OfFrame(e) && Exists(view.db, sid) && SessionInv(view.db.sessions[sid])
    ensures RecordedMoves(view, FrameStep(view, sid, e), sid, e)
  {
    if e.MeterRecord? {
      RecordingRecords(view, sid);
    } else if e.StopComplete? && view.frame.StopCompleting? {
      CompletionForgets(view.db, sid, view.frame.meterWh, e.now);
    } else if e.StopHandle? && view.frame.StopHandling? {
      OtherStepKeepsEnergy(view.db, StopEvent(sid, view.frame.session, e.now), sid);
    }
  }

  lemma CallersRecordNothing(view: State, sid: nat, e: Event)
    requires !OfFrame(e) && Exists(view.db, sid) && SessionInv(view.db.sessions[sid])
    ensures RecordedMoves(view, CallerStep(view, sid, e), sid, e)
  {
    match e
    case Other(action) => if !MetersSession(action, sid) { OtherStepKeepsEnergy(view.db, action, sid); }
    case StartCall(user, now) => OtherStepKeepsEnergy(view.db, PrepareStart(sid, user, now), sid);
    case StopCall(id, user, now) => OtherStepKeepsEnergy(view.db, PrepareStop(sid, user, now), sid);
    case StopCommit(id, now) =>
      if id in view.stops && view.stops[id].Committing? { CompletionForgets(view.db, sid, view.stops[id].meterWh, now); }
    case _ =>
  }

  /** The remote start is issued once. */
  lemma ClaimsStay(view: State, sid: nat, e: Event)
    requires Exists(view.db, sid) && M.ClaimsInv(view, view.db.sessions[sid]) && !OfFrame(e)
    requires Exists(CallerStep(view, sid, e).db, sid)
    requires Rank(view.db.sessions[sid].status) <= Rank(CallerStep(view, sid, e).db.sessions[sid].status)
    ensures M.ClaimsInv(CallerStep(view, sid, e), CallerStep(view, sid, e).db.sessions[sid])
  {
  }

  // ---------------------------------------------------------------- every step

  lemma OthersFit(frame: Frame, before: Option<T.Row>, after: Option<T.Row>, stored: seq<nat>, longer: seq<nat>, at: Option<nat>)
    requires FrameFits(frame, before, stored, at) && Supersedes(before, after) && stored <= longer
    requires after.None? ==> before.None?
    ensures FrameFits(frame, after, longer, at)
  {
  }

  lemma SortedAppend(stored: seq<nat>, meterWh: nat)
    requires Sorted(stored) && (stored != [] ==> stored[|stored| - 1] <= meterWh)
    ensures Sorted(stored + [meterWh])
  {
  }

  /** Row, meters and frames of all connections stay in order. */
  lemma NextKeepsOrder(s: System, sid: nat, e: SocketEvent)
    requires Inv(s, sid)
    ensures RowFits(Next(s, sid, e).row, Next(s, sid, e).stored) && Sorted(Next(s, sid, e).stored)
    ensures forall socket ::
      FrameFits(View(Next(s, sid, e), socket).frame, Next(s, sid, e).row, Next(s, sid, e).stored, AtOf(Next(s, sid, e), socket))
  {
    hide OcppEndToEnd.FrameStep, OcppEndToEnd.CallerStep, RowFits, FrameFits, SessionFits;
    var view, after := View(s, e.socket), Next(s, sid, e);
    RowOfClaims(s, sid);
    assert FrameFits(view.frame, view.row, s.stored, AtOf(s, e.socket));
    if OfFrame(e.event) {
      FrameStepFits(view, sid, e.event, s.stored, AtOf(s, e.socket));
      if Writes(view, sid, e.event) {
        SortedAppend(s.stored, LastMeter(after.row));
      }
    } else {
      CallerStepFits(view, sid, e.event, s.stored);
      OthersFit(view.frame, s.row, after.row, s.stored, after.stored, AtOf(s, e.socket));
    }
    forall socket ensures FrameFits(View(after, socket).frame, after.row, after.stored, AtOf(after, socket)) {
      if socket != e.socket {
        assert FrameFits(View(s, socket).frame, s.row, s.stored, AtOf(s, socket));
        OthersFit(View(s, socket).frame, s.row, after.row, s.stored, after.stored, AtOf(s, socket));
      }
    }
  }

  lemma RowOfClaims(s: System, sid: nat)
    requires Inv(s, sid)
    ensures s.row.Some? ==> s.claims == 0
  {
  }

  lemma NextKeepsSession(s: System, sid: nat, e: SocketEvent)
    requires Inv(s, sid)
    ensures Exists(Next(s, sid, e).db, sid) && SessionFits(Next(s, sid, e), Next(s, sid, e).db.sessions[sid])
  {
    hide OcppEndToEnd.FrameStep, OcppEndToEnd.CallerStep, SessionInv;
    var view := View(s, e.socket);
    EnergyFallsIff(view, sid, e.event);
    assert M.ClaimsInv(view, view.db.sessions[sid]);
    if OfFrame(e.event) {
      FrameRecords(view, sid, e.event);
      FrameStepFits(view, sid, e.event, s.stored, AtOf(s, e.socket));
      if Records(view, sid, e.event) {
        assert FrameFits(view.frame, view.row, s.stored, AtOf(s, e.socket));
      }
    } else {
      CallersRecordNothing(view, sid, e.event);
      ClaimsStay(view, sid, e.event);
    }
  }

  lemma NextKeepsInv(s: System, sid: nat, e: SocketEvent)
    requires Inv(s, sid)
    ensures Inv(Next(s, sid, e), sid)
  {
    hide Next, RowFits, FrameFits, SessionFits, Sorted;
    NextKeepsOrder(s, sid, e);
    NextKeepsSession(s, sid, e);
  }

  // ---------------------------------------------------------------- whole runs

  /** A session that was created and not started yet, with no frame anywhere; all other tables are free. */
  predicate JustCreated(s: System, sid: nat) {
    M.JustCreated(View(s, 0), sid) && s.frames == map[] && s.stored == [] && s.at == map[] && s.recordedAt.None?
  }

  lemma {:induction false} RunKeepsInv(s: System, sid: nat, events: seq<SocketEvent>)
    requires JustCreated(s, sid)
    ensures Inv(Run(s, sid, events), sid)
  {
    if events != [] {
      RunKeepsInv(s, sid, events[..|events| - 1]);
      NextKeepsInv(Run(s, sid, events[..|events| - 1]), sid, events[|events| - 1]);
    }
  }

  function Energy(s: System, sid: nat): int {
    if Exists(s.db, sid) then s.db.sessions[sid].energyWh else 0
  }

  /** The step puts the meter that the frame carries into the session. */
  predicate Takes(s: System, sid: nat, e: SocketEvent) {
    && Exists(s.db, sid) && Recorded(s.db.sessions[sid]).Some?
    && var frame, session := View(s, e.socket).frame, s.db.sessions[sid];
    && match e.event
       case MeterRecord =>
         && frame.MeterRecording? && frame.session.status == CHARGING && session.status == CHARGING
         && MeterTx(s.db, sid, frame.session, frame.meterWh).Some?
       case StopComplete(_, _) => frame.StopCompleting? && CanComplete(s.db, sid) && session.energyWh > 0
       case _ => false
  }

  /** The connection's meter was stored before the one that the session recorded last, and is another one. */
  predicate Overtaken(s: System, socket: nat) {
    && socket in s.at && s.recordedAt.Some? && s.at[socket] < s.recordedAt.value < |s.stored|
    && s.stored[s.at[socket]] != s.stored[s.recordedAt.value]
  }

  /** Or a stop call bills a stop meter below the last recorded one. */
  predicate Lowers(s: System, sid: nat, e: SocketEvent) {
    || (Takes(s, sid, e) && Overtaken(s, e.socket))
    || (&& e.event.StopCommit? && e.event.id in s.stops && s.stops[e.event.id].Committing?
        && BillsBelow(s.db, sid, s.stops[e.event.id].meterWh))
  }

  lemma InOrderIff(s: System, sid: nat, socket: nat, meterWh: nat)
    requires Inv(s, sid) && InHand(meterWh, s.stored, AtOf(s, socket)) && Recorded(s.db.sessions[sid]).Some?
    ensures !Below(Recorded(s.db.sessions[sid]), meterWh) <==> Overtaken(s, socket)
  {
  }

  /**
    With any number of connections, the energy falls in a step exactly when a meter is taken over into
    the session that was stored before the one recorded last, or when a stop call bills less.
   */
  lemma EnergyFallsIffOvertaken(s: System, sid: nat, e: SocketEvent)
    requires Inv(s, sid)
    ensures Energy(Next(s, sid, e), sid) < Energy(s, sid) <==> Lowers(s, sid, e)
  {
    var view := View(s, e.socket);
    EnergyFallsIff(view, sid, e.event);
    assert FrameFits(view.frame, s.row, s.stored, AtOf(s, e.socket));
    if Recorded(s.db.sessions[sid]).Some? {
      if (e.event.MeterRecord? && view.frame.MeterRecording?) || (e.event.StopComplete? && view.frame.StopCompleting?) {
        InOrderIff(s, sid, e.socket, view.frame.meterWh);
      }
    }
  }

  ghost predicate NeverLowers(s: System, sid: nat, events: seq<SocketEvent>) {
    events != [] ==>
      && NeverLowers(s, sid, events[..|events| - 1])
      && !Lowers(Run(s, sid, events[..|events| - 1]), sid, events[|events| - 1])
  }

  ghost predicate AlwaysRises(s: System, sid: nat, events: seq<SocketEvent>) {
    events != [] ==>
      && AlwaysRises(s, sid, events[..|events| - 1])
      && Energy(Run(s, sid, events[..|events| - 1]), sid) <= Energy(Run(s, sid, events), sid)
  }

  /**
    Over any run of any number of connections the energy of a session never falls exactly when the
    meters reach the session in the order in which they were stored, and no stop call bills less.
   */
  lemma {:induction false} EnergyRisesIffInOrder(s: System, sid: nat, events: seq<SocketEvent>)
    requires JustCreated(s, sid)
    ensures AlwaysRises(s, sid, events) <==> NeverLowers(s, sid, events)
  {
    if events != [] {
      var front, e := events[..|events| - 1], events[|events| - 1];
      EnergyRisesIffInOrder(s, sid, front);
      RunKeepsInv(s, sid, front);
      EnergyFallsIffOvertaken(Run(s, sid, front), sid, e);
    }
  }

  // ---------------------------------------------------------------- one connection

  predicate OnSocket(events: seq<SocketEvent>, socket: nat) {
    forall i :: 0 <= i < |events| ==> events[i].socket == socket
  }

  function Frames(events: seq<SocketEvent>): seq<Event> {
    seq(|events|, i requires 0 <= i < |events| => events[i].event)
  }

  /** With one connection this is the run of its frames, in which the energy never falls. */
  lemma {:induction false} OneSocketNeverLowers(s: System, sid: nat, events: seq<SocketEvent>, socket: nat)
    requires JustCreated(s, sid) && OnSocket(events, socket)
    ensures View(Run(s, sid, events), socket) == RunSystem(View(s, socket), sid, Frames(events))
    ensures AlwaysRises(s, sid, events)
  {
    hide FrameStep, CallerStep;
    if events != [] {
      var front := events[..|events| - 1];
      OneSocketNeverLowers(s, sid, front, socket);
      assert Frames(events)[..|events| - 1] == Frames(front);
      assert events[|events| - 1].socket == socket;
      M.EnergyNeverFalls(View(s, socket), sid, Frames(front), [events[|events| - 1].event]);
      assert Frames(front) + [events[|events| - 1].event] == Frames(events);
    }
  }

  // ---------------------------------------------------------------- two connections

  lemma RunAppend(s: System, sid: nat, events: seq<SocketEvent>, e: SocketEvent)
    ensures Run(s, sid, events + [e]) == Next(Run(s, sid, events), sid, e)
  {
    assert (events + [e])[..|events|] == events;
  }

  lemma RunTwo(s: System, sid: nat, events: seq<SocketEvent>, e: SocketEvent, f: SocketEvent)
    ensures Run(s, sid, events + [e, f]) == Next(Next(Run(s, sid, events), sid, e), sid, f)
  {
    RunAppend(s, sid, events, e);
    RunAppend(s, sid, events + [e], f);
    assert events + [e] + [f] == events + [e, f];
  }

  function Started(sid: nat, user: nat): seq<SocketEvent> {
    [On(0, Other(Authorize(sid, 0))), On(0, StartCall(user, 0)), On(0, RemoteStart), On(0, StartFrame(0)),
     On(0, StartWrite), On(0, Other(CommitStart(sid, 0, 0)))]
  }

  /** The session charges from meter 0, the row is active, and no frame is in hand. */
  predicate Charges(s: System, sid: nat) {
    && Exists(s.db, sid)
    && s.db.sessions[sid].status == CHARGING && s.db.sessions[sid].meterStartWh == Some(0)
    && s.row == Some(T.Row(T.ACTIVE, 2, Some(0), Some(0), None))
    && View(s, 1).frame.NoFrame? && View(s, 2).frame.NoFrame?
  }

  lemma SessionStarts(s: System, sid: nat)
    requires JustCreated(s, sid) && s.db.sessions[sid].connector in s.db.connectors
    requires s.db.connectors[s.db.sessions[sid].connector].status == RESERVED
    ensures
      var user := s.db.sessions[sid].user;
      var t := Next(Next(s, sid, On(0, Other(Authorize(sid, 0)))), sid, On(0, StartCall(user, 0)));
      && Exists(t.db, sid) && t.db.sessions[sid] == s.db.sessions[sid].(status := STARTING, version := s.db.sessions[sid].version + 2)
      && t.db.connectors == s.db.connectors && t.claims == 1 && t.row.None? && t.frames == map[0 := NoFrame]
  {
  }

  lemma RowStarts(s: System, sid: nat)
    requires s.claims == 1 && s.row.None? && s.frames == map[0 := NoFrame]
    ensures
      var t := Next(Next(Next(s, sid, On(0, RemoteStart)), sid, On(0, StartFrame(0))), sid, On(0, StartWrite));
      t.row == Some(T.Row(T.ACTIVE, 2, Some(0), Some(0), None)) && t.db == s.db && t.frames == map[0 := NoFrame]
  {
    var known := T.Row(T.REMOTE_START_PENDING, 1, None, None, None);
    var issued := Next(s, sid, On(0, RemoteStart));
    assert issued.row == Some(known) && issued.frames == map[0 := NoFrame] && issued.db == s.db;
    hide CallerStep;
    StartIsStored(issued, sid, known);
  }

  lemma StartIsStored(s: System, sid: nat, known: T.Row)
    requires known == T.Row(T.REMOTE_START_PENDING, 1, None, None, None)
    requires s.row == Some(known) && s.frames == map[0 := NoFrame]
    ensures
      var t := Next(Next(s, sid, On(0, StartFrame(0))), sid, On(0, StartWrite));
      t.row == Some(T.Row(T.ACTIVE, 2, Some(0), Some(0), None)) && t.db == s.db && t.frames == map[0 := NoFrame]
  {
    var read := Next(s, sid, On(0, StartFrame(0)));
    assert read.frames == map[0 := StartWriting(known, 0)] && read.row == s.row && read.db == s.db;
  }

  lemma StartCommits(s: System, sid: nat)
    requires Exists(s.db, sid) && s.db.sessions[sid].status == STARTING && s.db.sessions[sid].connector in s.db.connectors
    requires s.db.sessions[sid].energyWh == 0 && s.db.sessions[sid].meterStopWh.None?
    requires s.row == Some(T.Row(T.ACTIVE, 2, Some(0), Some(0), None)) && s.frames == map[0 := NoFrame]
    ensures Charges(Next(s, sid, On(0, Other(CommitStart(sid, 0, 0)))), sid)
  {
  }

  lemma Starts(s: System, sid: nat)
    requires JustCreated(s, sid) && s.db.sessions[sid].connector in s.db.connectors
    requires s.db.connectors[s.db.sessions[sid].connector].status == RESERVED
    ensures Charges(Run(s, sid, Started(sid, s.db.sessions[sid].user)), sid)
  {
    hide Next, Charges;
    var user := s.db.sessions[sid].user;
    var events := Started(sid, user);
    RunTwo(s, sid, [], events[0], events[1]);
    RunTwo(s, sid, events[..2], events[2], events[3]);
    RunTwo(s, sid, events[..4], events[4], events[5]);
    assert [] + [events[0], events[1]] == events[..2] && events[..2] + [events[2], events[3]] == events[..4];
    assert events[..4] + [events[4], events[5]] == events;
    SessionStarts(s, sid);
    RowStarts(Run(s, sid, events[..2]), sid);
    StartCommits(Next(Run(s, sid, events[..4]), sid, events[4]), sid);
  }

  /** One connection stores a sample. */
  lemma Stores(s: System, sid: nat, socket: nat, meterWh: nat)
    requires s.row.Some? && s.row.value.status == T.ACTIVE && T.RowInv(s.row.value) && T.Floor(s.row.value) <= meterWh
    requires View(s, socket).frame.NoFrame?
    ensures
      var t := Next(Next(s, sid, On(socket, MeterFrame([O.Register(meterWh)]))), sid, On(socket, MeterWrite));
      && t.row == Some(T.Metered(s.row.value, meterWh)) && t.db == s.db
      && t.frames == s.frames[socket := Rereading(meterWh, [])]
  {
    O.RegisterReads(meterWh, s.row.value.last);
    assert [O.Register(meterWh)][1..] == [];
  }

  lemma Publishes(s: System, sid: nat, socket: nat, meterWh: nat)
    requires Exists(s.db, sid) && s.row.Some? && socket in s.frames && s.frames[socket] == Rereading(meterWh, [])
    ensures
      var read := Next(Next(s, sid, On(socket, Reread)), sid, On(socket, MeterPublish));
      && read.db == s.db && read.row == s.row
      && read.frames == s.frames[socket := MeterRecording(s.row.value, meterWh, [], s.db.sessions[sid])]
  {
  }

  lemma Recording(s: System, sid: nat, socket: nat, meterWh: nat)
    requires Exists(s.db, sid) && s.db.sessions[sid].status == CHARGING && s.db.sessions[sid].meterStartWh == Some(0)
    requires s.row.Some? && socket in s.frames
    requires s.frames[socket] == MeterRecording(s.row.value, meterWh, [], s.db.sessions[sid])
    ensures
      var t := Next(s, sid, On(socket, MeterRecord));
      && Exists(t.db, sid) && t.db.sessions[sid].status == CHARGING && t.db.sessions[sid].meterStartWh == Some(0)
      && Energy(t, sid) == meterWh && t.row == s.row
      && t.frames == s.frames[socket := Metering(s.row.value, [])]
  {
  }

  /** It reads the row again and hands the sample to the session. */
  lemma Delivers(s: System, sid: nat, socket: nat, meterWh: nat)
    requires Exists(s.db, sid) && s.db.sessions[sid].status == CHARGING && s.db.sessions[sid].meterStartWh == Some(0)
    requires s.row.Some? && socket in s.frames && s.frames[socket] == Rereading(meterWh, [])
    ensures
      var read := Next(Next(s, sid, On(socket, Reread)), sid, On(socket, MeterPublish));
      var t := Next(read, sid, On(socket, MeterRecord));
      && Energy(read, sid) == Energy(s, sid)
      && Exists(t.db, sid) && t.db.sessions[sid].status == CHARGING && t.db.sessions[sid].meterStartWh == Some(0)
      && Energy(t, sid) == meterWh && t.row == s.row
      && t.frames.Keys == s.frames.Keys && (forall other :: other in s.frames && other != socket ==> t.frames[other] == s.frames[other])
  {
    hide Next;
    Publishes(s, sid, socket, meterWh);
    var read := Next(Next(s, sid, On(socket, Reread)), sid, On(socket, MeterPublish));
    Recording(read, sid, socket, meterWh);
  }

  /** Both connections store, the second one first delivers the larger sample, then the first one the smaller. */
  function Crossing(lower: nat, higher: nat): (steps: seq<SocketEvent>)
    ensures |steps| == 10
  {
    [On(1, MeterFrame([O.Register(lower)])), On(1, MeterWrite), On(2, MeterFrame([O.Register(higher)])), On(2, MeterWrite),
     On(2, Reread), On(2, MeterPublish), On(2, MeterRecord), On(1, Reread), On(1, MeterPublish), On(1, MeterRecord)]
  }

  lemma CrossingLowers(s: System, sid: nat, before: seq<SocketEvent>, lower: nat, higher: nat)
    requires Charges(Run(s, sid, before), sid) && lower < higher
    ensures
      var events := before + Crossing(lower, higher);
      Energy(Run(s, sid, events[..|events| - 1]), sid) == higher && Energy(Run(s, sid, events), sid) == lower
  {
    hide Next, Run, Energy;
    var c := Crossing(lower, higher);
    var e2, e4, e6 := before + c[..2], before + c[..4], before + c[..6];
    RunTwo(s, sid, before, c[0], c[1]);
    RunTwo(s, sid, e2, c[2], c[3]);
    RunTwo(s, sid, e4, c[4], c[5]);
    RunAppend(s, sid, e6, c[6]);
    RunTwo(s, sid, before + c[..7], c[7], c[8]);
    RunAppend(s, sid, before + c[..9], c[9]);
    assert before + [c[0], c[1]] == e2 && e2 + [c[2], c[3]] == e4 && e4 + [c[4], c[5]] == e6;
    assert e6 + [c[6]] == before + c[..7] && before + c[..7] + [c[7], c[8]] == before + c[..9];
    assert before + c[..9] + [c[9]] == before + c;
    var events := before + c;
    assert events[..|events| - 1] == before + c[..9];
    Stores(Run(s, sid, before), sid, 1, lower);
    Stores(Run(s, sid, e2), sid, 2, higher);
    Delivers(Run(s, sid, e4), sid, 2, higher);
    Delivers(Run(s, sid, before + c[..7]), sid, 1, lower);
  }

  /**
    The code can get there: a session that starts on one connection and is metered on two, whose energy
    falls from the higher sample to the lower one in the last step of the run.
   */
  lemma TwoConnectionsLowerTheEnergy(s: System, sid: nat, lower: nat, higher: nat)
    requires JustCreated(s, sid) && s.db.sessions[sid].connector in s.db.connectors && lower < higher
    requires s.db.connectors[s.db.sessions[sid].connector].status == RESERVED
    ensures
      var events := Started(sid, s.db.sessions[sid].user) + Crossing(lower, higher);
      && Energy(Run(s, sid, events[..|events| - 1]), sid) == higher && Energy(Run(s, sid, events), sid) == lower
      && !NeverLowers(s, sid, events)
  {
    Starts(s, sid);
    hide Next, Run, Lowers, Started, Crossing, Charges, JustCreated, Energy, AlwaysRises, NeverLowers;
    var events := Started(sid, s.db.sessions[sid].user) + Crossing(lower, higher);
    CrossingLowers(s, sid, Started(sid, s.db.sessions[sid].user), lower, higher);
    FallingIsNotRising(s, sid, events);
    EnergyRisesIffInOrder(s, sid, events);
  }

  lemma FallingIsNotRising(s: System, sid: nat, events: seq<SocketEvent>)
    requires events != [] && Energy(Run(s, sid, events), sid) < Energy(Run(s, sid, events[..|events| - 1]), sid)
    ensures !AlwaysRises(s, sid, events)
  {
  }
}
