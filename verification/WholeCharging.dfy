/**
  A whole charging from the start call to the bill, over one connection and with nothing else in
  between: what the meter of the charge point says is what the session holds and its user is billed.
 */
module WholeCharging {
  import opened Common
  import opened SessionLifecycle
  import opened Charging
  import opened ChargingEffects
  import opened MeterSample
  import opened OcppEndToEnd
  import F = TransactionFrames
  import M = MeteredEnergy
  import T = OcppTransactions

  lemma RunAppend(s: State, sid: nat, events: seq<Event>, e: Event)
    ensures RunSystem(s, sid, events + [e]) == Next(RunSystem(s, sid, events), sid, e)
  {
    assert (events + [e])[..|events|] == events;
  }

  lemma RunThree(s: State, sid: nat, events: seq<Event>, a: Event, b: Event, c: Event)
    ensures RunSystem(s, sid, events + [a, b, c])
         == Next(Next(Next(RunSystem(s, sid, events), sid, a), sid, b), sid, c)
  {
    hide RunSystem, Next;
    var first, second := events + [a], events + [a, b];
    assert first + [b] == second && second + [c] == events + [a, b, c];
    RunAppend(s, sid, events, a);
    RunAppend(s, sid, first, b);
    RunAppend(s, sid, second, c);
  }

  /** The tables are sound, session, connector and user known, and no frame is in hand. */
  ghost predicate Sound(s: State, sid: nat) {
    && Exists(s.db, sid) && ChecksHold(s.db.sessions) && SessionInv(s.db.sessions[sid])
    && s.db.sessions[sid].connector in s.db.connectors && s.db.sessions[sid].user in s.db.users
    && s.frame.NoFrame?
  }

  /** The session charges from a start meter, and the last meter is what row and session hold. */
  ghost predicate Charges(s: State, sid: nat, start: nat, last: nat) {
    && Sound(s, sid) && start <= last
    && var session := s.db.sessions[sid];
    && session.status == CHARGING && session.meterStartWh == Some(start) && session.energyWh == last - start
    && s.row.Some? && s.row.value.status == T.ACTIVE
    && s.row.value.start == Some(start) && s.row.value.last == Some(last) && s.row.value.stop == None
  }

  /** Nothing but the one session, its row and its connector has moved. */
  predicate SameAround(s: State, after: State, sid: nat) {
    && after.db.users == s.db.users && after.stops == s.stops && after.claims == s.claims
    && Exists(s.db, sid) && Exists(after.db, sid)
    && after.db.sessions[sid].user == s.db.sessions[sid].user
  }

  // ---------------------------------------------------------------- the start

  /** A session that may start: authorized, its connector offered, and no OCPP transaction yet. */
  ghost predicate MayStart(s: State, sid: nat) {
    && Sound(s, sid) && s.row.None?
    && s.db.sessions[sid].status == AUTHORIZED
    && var connector := s.db.connectors[s.db.sessions[sid].connector];
    && (connector.status == AVAILABLE || connector.status == RESERVED)
  }

  function Starting(sid: nat, user: nat, start: nat, t: int, now: int): seq<Event> {
    [StartCall(user, t), RemoteStart, StartFrame(start)] + [StartWrite] + [Other(CommitStart(sid, start, now))]
  }

  /** The row is active at the start meter, the session still STARTING. */
  ghost predicate Begins(s: State, after: State, sid: nat, start: nat) {
    && Sound(after, sid) && SameAround(s, after, sid)
    && after.db.sessions[sid].status == STARTING
    && after.row == Some(T.Row(T.ACTIVE, 2, Some(start), Some(start), None))
  }

  lemma StartCallPrepares(s: State, sid: nat, t: int)
    requires MayStart(s, sid)
    ensures
      var after := Next(s, sid, StartCall(s.db.sessions[sid].user, t));
      && after == s.(db := after.db, claims := s.claims + 1)
      && Sound(after, sid) && after.db.users == s.db.users
      && after.db.sessions[sid].status == STARTING && after.db.sessions[sid].user == s.db.sessions[sid].user
  {
    var a := PrepareStart(sid, s.db.sessions[sid].user, t);
    CommitsIff(s.db, a);
    StepKeepsChecks(s.db, a);
    StepKeepsMeters(s.db, a, sid);
    hide ChecksHold, SessionInv;
  }

  lemma StartFrameBegins(s: State, sid: nat, start: nat)
    requires Sound(s, sid) && s.row.None? && s.claims > 0
    ensures
      var after := Next(Next(Next(s, sid, RemoteStart), sid, StartFrame(start)), sid, StartWrite);
      after == s.(claims := s.claims - 1, row := Some(T.Row(T.ACTIVE, 2, Some(start), Some(start), None)))
  {
  }

  lemma StartBegins(s: State, sid: nat, start: nat, t: int)
    requires MayStart(s, sid)
    ensures
      var called := Next(s, sid, StartCall(s.db.sessions[sid].user, t));
      Begins(s, Next(Next(Next(called, sid, RemoteStart), sid, StartFrame(start)), sid, StartWrite), sid, start)
  {
    StartCallPrepares(s, sid, t);
    StartFrameBegins(Next(s, sid, StartCall(s.db.sessions[sid].user, t)), sid, start);
    hide Next, ChecksHold, SessionInv;
  }

  lemma CommitCharges(s: State, began: State, sid: nat, start: nat, now: int)
    requires Begins(s, began, sid, start)
    ensures
      var after := Next(began, sid, Other(CommitStart(sid, start, now)));
      Charges(after, sid, start, start) && SameAround(s, after, sid)
  {
    var a := CommitStart(sid, start, now);
    CommitsIff(began.db, a);
    StepKeepsChecks(began.db, a);
    StepKeepsMeters(began.db, a, sid);
    hide ChecksHold, Tx, Step;
  }

  /** The call is answered by the StartTransaction: the session charges from its meter. */
  lemma StartCharges(s: State, sid: nat, start: nat, t: int, now: int)
    requires MayStart(s, sid)
    ensures
      var after := RunSystem(s, sid, Starting(sid, s.db.sessions[sid].user, start, t, now));
      Charges(after, sid, start, start) && SameAround(s, after, sid)
  {
    var user := s.db.sessions[sid].user;
    hide RunSystem, Next, MayStart, Begins, Charges, SameAround;
    var read := [StartCall(user, t), RemoteStart, StartFrame(start)];
    RunThree(s, sid, [], StartCall(user, t), RemoteStart, StartFrame(start));
    assert [] + read == read;
    EmptyRun(s, sid);
    RunAppend(s, sid, read, StartWrite);
    RunAppend(s, sid, read + [StartWrite], Other(CommitStart(sid, start, now)));
    StartBegins(s, sid, start, t);
    CommitCharges(s, RunSystem(s, sid, read + [StartWrite]), sid, start, now);
  }

  lemma EmptyRun(s: State, sid: nat)
    ensures RunSystem(s, sid, []) == s
  {
  }

  // ---------------------------------------------------------------- samples

  function Sampling(meterWh: nat): seq<Event> {
    [MeterFrame(F.OneSample(meterWh)), MeterWrite, Reread] + [MeterPublish, MeterRecord, MeterWrite]
  }

  lemma SampleIsStored(s: State, sid: nat, start: nat, last: nat, meterWh: nat)
    requires Charges(s, sid, start, last) && last <= meterWh
    ensures
      var after := Next(Next(Next(s, sid, MeterFrame(F.OneSample(meterWh))), sid, MeterWrite), sid, Reread);
      var row := s.row.value.(version := s.row.value.version + 1, last := Some(meterWh));
      after == s.(row := Some(row), frame := MeterPublishing(row, meterWh, []))
  {
    F.OneSampleReads(s.row.value, meterWh);
    assert F.OneSample(meterWh)[1..] == [];
    hide T.NextMeter, ChecksHold, SessionInv;
  }

  lemma MeterMoves(db: Db, sid: nat, start: nat, last: nat, meterWh: nat)
    requires Exists(db, sid) && ChecksHold(db.sessions) && SessionInv(db.sessions[sid])
    requires db.sessions[sid].status == CHARGING && db.sessions[sid].meterStartWh == Some(start) && start <= meterWh
    ensures
      var recorded := MeterTx(db, sid, db.sessions[sid], meterWh);
      && recorded.Some? && Exists(recorded.value, sid) && ChecksHold(recorded.value.sessions)
      && var before, after := db.sessions[sid], recorded.value.sessions[sid];
      && SessionInv(after) && after.status == CHARGING && after.meterStartWh == Some(start)
      && after.energyWh == meterWh - start && after.user == before.user && after.connector == before.connector
      && recorded.value.users == db.users && recorded.value.connectors.Keys == db.connectors.Keys
  {
    var a := Meter(sid, db.sessions[sid], meterWh);
    CommitsIff(db, a);
    StepKeepsChecks(db, a);
    StepKeepsMeters(db, a, sid);
    hide ChecksHold, SessionInv;
  }

  lemma SampleIsRecorded(s: State, stored: State, sid: nat, start: nat, last: nat, meterWh: nat)
    requires Charges(s, sid, start, last) && last <= meterWh
    requires
      var row := s.row.value.(version := s.row.value.version + 1, last := Some(meterWh));
      stored == s.(row := Some(row), frame := MeterPublishing(row, meterWh, []))
    ensures
      var after := Next(Next(Next(stored, sid, MeterPublish), sid, MeterRecord), sid, MeterWrite);
      Charges(after, sid, start, meterWh) && SameAround(s, after, sid)
  {
    MeterMoves(s.db, sid, start, last, meterWh);
    hide ChecksHold, SessionInv, T.NextMeter, MeterTx;
  }

  /** A sample that does not run backwards is the last meter of row and session, and the energy so far. */
  lemma SampleCharges(s: State, sid: nat, start: nat, last: nat, meterWh: nat)
    requires Charges(s, sid, start, last) && last <= meterWh
    ensures
      var after := RunSystem(s, sid, Sampling(meterWh));
      Charges(after, sid, start, meterWh) && SameAround(s, after, sid)
  {
    SampleIsStored(s, sid, start, last, meterWh);
    hide RunSystem, Next, Charges, SameAround;
    var read := [MeterFrame(F.OneSample(meterWh)), MeterWrite, Reread];
    RunThree(s, sid, [], MeterFrame(F.OneSample(meterWh)), MeterWrite, Reread);
    assert [] + read == read;
    EmptyRun(s, sid);
    RunThree(s, sid, read, MeterPublish, MeterRecord, MeterWrite);
    SampleIsRecorded(s, RunSystem(s, sid, read), sid, start, last, meterWh);
  }

  /** Any number of samples, one frame each. */
  function AllSamples(meters: seq<nat>): seq<Event> {
    if meters == [] then [] else AllSamples(meters[..|meters| - 1]) + Sampling(meters[|meters| - 1])
  }

  /** The last of the meters. */
  function LastOf(start: nat, meters: seq<nat>): nat {
    if meters == [] then start else meters[|meters| - 1]
  }

  predicate Rising(start: nat, meters: seq<nat>) {
    (meters != [] ==> start <= meters[0]) && forall i :: 0 <= i < |meters| - 1 ==> meters[i] <= meters[i + 1]
  }

  lemma {:induction false} SamplesCharge(s: State, sid: nat, start: nat, meters: seq<nat>)
    requires Charges(s, sid, start, start) && Rising(start, meters)
    ensures
      var after := RunSystem(s, sid, AllSamples(meters));
      Charges(after, sid, start, LastOf(start, meters)) && SameAround(s, after, sid)
  {
    if meters == [] {
      EmptyRun(s, sid);
    } else {
      var front, last := meters[..|meters| - 1], meters[|meters| - 1];
      SamplesCharge(s, sid, start, front);
      M.RunConcat(s, sid, AllSamples(front), Sampling(last));
      assert LastOf(start, front) <= last;
      SampleCharges(RunSystem(s, sid, AllSamples(front)), sid, start, LastOf(start, front), last);
      hide RunSystem, Charges, Sampling;
    }
  }

  // ---------------------------------------------------------------- the stop

  /** The session is completed at its meter and its user billed the distance; the row is completed too. */
  ghost predicate Bills(s: State, after: State, sid: nat, start: nat, stop: nat) {
    && Exists(s.db, sid) && Exists(after.db, sid) && start <= stop && s.db.sessions[sid].user in s.db.users
    && var session, user := after.db.sessions[sid], s.db.sessions[sid].user;
    && session.status == COMPLETED && session.meterStopWh == Some(stop) && session.energyWh == stop - start
    && after.db.users == s.db.users[user := s.db.users[user] + (stop - start)]
    && after.row.Some? && after.row.value.status == T.COMPLETED && after.row.value.stop == Some(stop)
  }

  /** A StopTransaction and everything it sets off. */
  function Stopping(stop: nat, waiter: nat, now: int): seq<Event> {
    [StopFrame(stop), StopWrite, StopPublish] + [StopHandle(now), StopComplete(now, true), StopNotify(waiter)]
  }

  /** The session runs, by its own account or with a stop call on its way. */
  ghost predicate RunsFrom(s: State, sid: nat, start: nat, last: nat) {
    && Sound(s, sid) && start <= last
    && var session := s.db.sessions[sid];
    && (session.status == CHARGING || session.status == STOPPING) && session.meterStartWh == Some(start)
    && s.row.Some? && (s.row.value.status == T.ACTIVE || s.row.value.status == T.STOPPING)
    && s.row.value.start == Some(start) && s.row.value.last == Some(last)
  }

  lemma StopIsStored(s: State, sid: nat, start: nat, last: nat, stop: nat)
    requires RunsFrom(s, sid, start, last) && last <= stop
    ensures
      var after := Next(Next(Next(s, sid, StopFrame(stop)), sid, StopWrite), sid, StopPublish);
      var row := T.Row(T.COMPLETED, s.row.value.version + 1, Some(start), Some(stop), Some(stop));
      after == s.(row := Some(row), frame := StopHandling(stop, s.db.sessions[sid]))
  {
    hide ChecksHold, SessionInv;
  }

  lemma StopIsBilled(s: State, sid: nat, start: nat, last: nat, stop: nat, now: int)
    requires RunsFrom(s, sid, start, last) && last <= stop
    ensures
      var a, b := StopEvent(sid, s.db.sessions[sid], now), Complete(sid, stop, now);
      var stopping := Step(s.db, a);
      && Tx(s.db, a) == Some(stopping) && Tx(stopping, b).Some?
      && Exists(Step(stopping, b), sid)
      && var session, user := Step(stopping, b).sessions[sid], s.db.sessions[sid].user;
      && session.status == COMPLETED && session.meterStopWh == Some(stop) && session.energyWh == stop - start
      && Step(stopping, b).users == s.db.users[user := s.db.users[user] + (stop - start)]
  {
    var a, b := StopEvent(sid, s.db.sessions[sid], now), Complete(sid, stop, now);
    CommitsIff(s.db, a);
    StepKeepsChecks(s.db, a);
    CommitsIff(Step(s.db, a), b);
    hide ChecksHold, SessionInv;
  }

  lemma StopIsHandled(s: State, stored: State, sid: nat, start: nat, last: nat, stop: nat, now: int)
    requires RunsFrom(s, sid, start, last) && last <= stop
    requires
      var row := T.Row(T.COMPLETED, s.row.value.version + 1, Some(start), Some(stop), Some(stop));
      stored == s.(row := Some(row), frame := StopHandling(stop, s.db.sessions[sid]))
    ensures
      var after := Next(Next(stored, sid, StopHandle(now)), sid, StopComplete(now, true));
      Bills(s, after, sid, start, stop) && after.frame == StopNotifying(stop) && after.stops == s.stops
  {
    StopIsBilled(s, sid, start, last, stop, now);
    hide ChecksHold, SessionInv, Tx, Step;
  }

  lemma NotifyingSettles(s: State, billed: State, sid: nat, start: nat, stop: nat, waiter: nat)
    requires Bills(s, billed, sid, start, stop) && billed.frame == StopNotifying(stop) && billed.stops == s.stops
    ensures
      var after := Next(billed, sid, StopNotify(waiter));
      && Bills(s, after, sid, start, stop) && after.frame.NoFrame?
      && after.stops == (if waiter in s.stops && s.stops[waiter].Waiting? then s.stops[waiter := Committing(stop)] else s.stops)
  {
  }

  /** A StopTransaction completes and bills the session; a stop call that waits for it gets its meter. */
  lemma StopBills(s: State, sid: nat, start: nat, last: nat, stop: nat, waiter: nat, now: int)
    requires RunsFrom(s, sid, start, last) && last <= stop
    ensures
      var after := RunSystem(s, sid, Stopping(stop, waiter, now));
      && Bills(s, after, sid, start, stop) && after.frame.NoFrame?
      && after.stops == (if waiter in s.stops && s.stops[waiter].Waiting? then s.stops[waiter := Committing(stop)] else s.stops)
  {
    StopIsStored(s, sid, start, last, stop);
    hide RunSystem, Next, RunsFrom, Bills;
    var read := [StopFrame(stop), StopWrite, StopPublish];
    RunThree(s, sid, [], StopFrame(stop), StopWrite, StopPublish);
    assert [] + read == read;
    EmptyRun(s, sid);
    RunThree(s, sid, read, StopHandle(now), StopComplete(now, true), StopNotify(waiter));
    var stored := RunSystem(s, sid, read);
    StopIsHandled(s, stored, sid, start, last, stop, now);
    NotifyingSettles(s, Next(Next(stored, sid, StopHandle(now)), sid, StopComplete(now, true)), sid, start, stop, waiter);
  }

  /** A stop call up to its wait for the charge point. */
  function Calling(id: nat, user: nat, t: int): seq<Event> {
    [StopCall(id, user, t), StopRead(id), StopMark(id)]
  }

  lemma StopPrepares(db: Db, sid: nat, t: int)
    requires Exists(db, sid) && ChecksHold(db.sessions) && SessionInv(db.sessions[sid])
    requires db.sessions[sid].status == CHARGING
    ensures
      var prepared := PrepareStopTx(db, sid, db.sessions[sid].user, t);
      && prepared.Some? && prepared.value.invokeGateway
      && var after := prepared.value.db;
      && Exists(after, sid) && ChecksHold(after.sessions) && SessionInv(after.sessions[sid])
      && after.sessions[sid].status == STOPPING && after.sessions[sid].meterStartWh == db.sessions[sid].meterStartWh
      && after.sessions[sid].user == db.sessions[sid].user && after.sessions[sid].connector == db.sessions[sid].connector
      && after.users == db.users && after.connectors == db.connectors
  {
    var a := PrepareStop(sid, db.sessions[sid].user, t);
    CommitsIff(db, a);
    StepKeepsChecks(db, a);
    StepKeepsMeters(db, a, sid);
    hide ChecksHold, SessionInv;
  }

  /** A stop call that finds a meter on the row commits it; without a row it fails; else it asks for a stop and waits. */
  lemma StopCallsMove(s: State, sid: nat, id: nat)
    requires id in s.stops
    ensures
      var found := s.row.Some? && s.row.value.status == T.COMPLETED && s.row.value.stop.Some?;
      && (s.stops[id] == ReadingRow ==>
            Next(s, sid, StopRead(id)) == s.(stops := s.stops[id :=
              if s.row.None? then Over else if found then Committing(s.row.value.stop.value) else MarkingRow]))
      && (s.stops[id] == MarkingRow && s.row.Some? ==>
            Next(s, sid, StopMark(id)) == s.(stops := s.stops[id := Waiting],
              row := Some(s.row.value.(status := T.STOPPING, version := s.row.value.version + 1))))
      && (s.stops[id] == Waiting ==>
            && Next(s, sid, StopFinds(id))
                 == (if found then s.(stops := s.stops[id := Committing(s.row.value.stop.value)]) else s)
            && Next(s, sid, StopGivesUp(id)) == s.(stops := s.stops[id := Over]))
  {
  }

  /** A stop call reaches the gateway exactly when it has moved the session to STOPPING itself. */
  lemma StopCallBegins(s: State, sid: nat, id: nat, user: nat, t: int)
    requires ChecksHold(s.db.sessions) && id !in s.stops
    ensures
      var after := Next(s, sid, StopCall(id, user, t));
      if Exists(s.db, sid) && s.db.sessions[sid].user == user && s.db.sessions[sid].status == CHARGING then
        && after == s.(db := after.db, stops := s.stops[id := ReadingRow])
        && Exists(after.db, sid) && after.db.sessions[sid].status == STOPPING
      else after == s
  {
    CommitsIff(s.db, PrepareStop(sid, user, t));
  }

  lemma StopCallWaits(s: State, sid: nat, start: nat, last: nat, id: nat, t: int)
    requires Charges(s, sid, start, last) && id !in s.stops
    ensures
      var after := Next(Next(Next(s, sid, StopCall(id, s.db.sessions[sid].user, t)), sid, StopRead(id)), sid, StopMark(id));
      RunsFrom(after, sid, start, last) && SameAround(s, after.(stops := s.stops), sid) && after.stops == s.stops[id := Waiting]
  {
    StopPrepares(s.db, sid, t);
    hide ChecksHold, SessionInv, PrepareStopTx;
  }

  /** The call commits the meter it was told, on a session that is completed already. */
  lemma CommitEnds(s: State, sid: nat, id: nat, stop: nat, now: int)
    requires Exists(s.db, sid) && s.db.sessions[sid].status == COMPLETED
    requires id in s.stops && s.stops[id] == Committing(stop)
    ensures Next(s, sid, StopCommit(id, now)) == s.(stops := s.stops[id := Over])
  {
  }

  /** A stop call, the StopTransaction it asks for, and its commit. */
  function StoppingCall(id: nat, user: nat, stop: nat, t: int, now: int): seq<Event> {
    Calling(id, user, t) + Stopping(stop, id, now) + [StopCommit(id, now)]
  }

  /** What is billed from a state that has moved nothing around the session is billed from before. */
  lemma BillsFromBefore(s: State, mid: State, after: State, sid: nat, start: nat, stop: nat)
    requires SameAround(s, mid.(stops := s.stops), sid) && Bills(mid, after, sid, start, stop)
    ensures Bills(s, after, sid, start, stop)
  {
  }

  lemma CallRun(s: State, sid: nat, start: nat, last: nat, id: nat, t: int)
    requires Charges(s, sid, start, last) && id !in s.stops
    ensures
      var after := RunSystem(s, sid, Calling(id, s.db.sessions[sid].user, t));
      RunsFrom(after, sid, start, last) && SameAround(s, after.(stops := s.stops), sid) && after.stops == s.stops[id := Waiting]
  {
    var user := s.db.sessions[sid].user;
    StopCallWaits(s, sid, start, last, id, t);
    hide RunSystem, Next, RunsFrom, Charges, SameAround;
    RunThree(s, sid, [], StopCall(id, user, t), StopRead(id), StopMark(id));
    assert [] + Calling(id, user, t) == Calling(id, user, t);
    EmptyRun(s, sid);
  }

  lemma CommitRun(s: State, sid: nat, events: seq<Event>, mid: State, id: nat, start: nat, stop: nat, now: int)
    requires
      var billed := RunSystem(s, sid, events);
      Bills(mid, billed, sid, start, stop) && id in billed.stops && billed.stops[id] == Committing(stop)
    ensures
      var after := RunSystem(s, sid, events + [StopCommit(id, now)]);
      Bills(mid, after, sid, start, stop) && id in after.stops && after.stops[id] == Over
  {
    RunAppend(s, sid, events, StopCommit(id, now));
    CommitEnds(RunSystem(s, sid, events), sid, id, stop, now);
    hide RunSystem, Next;
  }

  lemma WaitedStopBills(s: State, sid: nat, start: nat, last: nat, stop: nat, id: nat, now: int)
    requires RunsFrom(s, sid, start, last) && last <= stop && id in s.stops && s.stops[id] == Waiting
    ensures
      var after := RunSystem(s, sid, Stopping(stop, id, now));
      Bills(s, after, sid, start, stop) && id in after.stops && after.stops[id] == Committing(stop)
  {
    StopBills(s, sid, start, last, stop, id, now);
    hide RunSystem, RunsFrom, Bills, Stopping;
  }

  /** A stop call ends with the session billed once, at the meter of the StopTransaction it waited for. */
  lemma StopCallBills(s: State, sid: nat, start: nat, last: nat, id: nat, stop: nat, t: int, now: int)
    requires Charges(s, sid, start, last) && last <= stop && id !in s.stops
    ensures
      var after := RunSystem(s, sid, StoppingCall(id, s.db.sessions[sid].user, stop, t, now));
      Bills(s, after, sid, start, stop) && id in after.stops && after.stops[id] == Over
  {
    var called := Calling(id, s.db.sessions[sid].user, t);
    hide RunSystem, RunsFrom, Charges, Bills, SameAround, Calling, Stopping;
    CallRun(s, sid, start, last, id, t);
    var waiting := RunSystem(s, sid, called);
    M.RunConcat(s, sid, called, Stopping(stop, id, now));
    WaitedStopBills(waiting, sid, start, last, stop, id, now);
    CommitRun(s, sid, called + Stopping(stop, id, now), waiting, id, start, stop, now);
    BillsFromBefore(s, waiting, RunSystem(s, sid, called + Stopping(stop, id, now) + [StopCommit(id, now)]), sid, start, stop);
  }

  lemma SameAroundTwice(s: State, mid: State, after: State, sid: nat)
    requires SameAround(s, mid, sid) && SameAround(mid, after, sid)
    ensures SameAround(s, after, sid) && after.stops == s.stops && after.(stops := s.stops) == after
    ensures after.db.sessions[sid].user == s.db.sessions[sid].user
  {
  }

  lemma StartAndSamplesCharge(s: State, sid: nat, start: nat, meters: seq<nat>, t: int, now: int)
    requires MayStart(s, sid) && Rising(start, meters)
    ensures
      var after := RunSystem(s, sid, Starting(sid, s.db.sessions[sid].user, start, t, now) + AllSamples(meters));
      && Charges(after, sid, start, LastOf(start, meters)) && SameAround(s, after, sid)
      && after.stops == s.stops && after.(stops := s.stops) == after
      && Exists(after.db, sid) && after.db.sessions[sid].user == s.db.sessions[sid].user
  {
    var starting := Starting(sid, s.db.sessions[sid].user, start, t, now);
    hide RunSystem, Charges, MayStart, Starting, AllSamples, Rising, SameAround;
    StartCharges(s, sid, start, t, now);
    SamplesCharge(RunSystem(s, sid, starting), sid, start, meters);
    M.RunConcat(s, sid, starting, AllSamples(meters));
    SameAroundTwice(s, RunSystem(s, sid, starting), RunSystem(s, sid, starting + AllSamples(meters)), sid);
    SameAroundExists(s, RunSystem(s, sid, starting + AllSamples(meters)), sid);
  }

  lemma SameAroundExists(s: State, after: State, sid: nat)
    requires SameAround(s, after, sid)
    ensures Exists(after.db, sid)
  {
  }

  /**
    From start to bill: a session that may start, started at one meter, sampled at any number of rising
    ones and stopped at the last by a stop call, is completed with the distance from start to stop, and
    that is what its user is billed, once.
   */
  lemma WholeChargingIsBilled(
    s: State, sid: nat, start: nat, meters: seq<nat>, stop: nat, id: nat, t1: int, t2: int, t3: int, t4: int)
    requires MayStart(s, sid) && id !in s.stops
    requires Rising(start, meters) && LastOf(start, meters) <= stop
    ensures
      var user := s.db.sessions[sid].user;
      var charging := Starting(sid, user, start, t1, t2) + AllSamples(meters);
      Bills(s, RunSystem(s, sid, charging + StoppingCall(id, user, stop, t3, t4)), sid, start, stop)
  {
    var user := s.db.sessions[sid].user;
    hide RunSystem, Charges, Bills, MayStart, SameAround, StoppingCall, Starting, AllSamples, Rising;
    StartAndSamplesCharge(s, sid, start, meters, t1, t2);
    var charging := Starting(sid, user, start, t1, t2) + AllSamples(meters);
    var charged := RunSystem(s, sid, charging);
    StopCallBills(charged, sid, start, LastOf(start, meters), id, stop, t3, t4);
    M.RunConcat(s, sid, charging, StoppingCall(id, user, stop, t3, t4));
    BillsFromBefore(s, charged, RunSystem(s, sid, charging + StoppingCall(id, user, stop, t3, t4)), sid, start, stop);
  }
}
