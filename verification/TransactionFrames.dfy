/**
  What a charge point is answered for its transaction frames and what they leave in the row
  (`handleStartTransaction`, `handleMeterValues` and `handleStopTransaction` in
  apps/backend/src/ocpp/ocpp16-central-system.service.ts): whole frames with no other step in between,
  the writes of the remote commands, and writes that come too late.
 */
module TransactionFrames {
  import opened Common
  import opened MeterSample
  import opened OcppTransactions

  lemma RunAppend(s: State, events: seq<Event>, e: Event)
    ensures Run(s, events + [e]) == Next(Run(s, events), e)
  {
    assert (events + [e])[..|events|] == events;
  }

  lemma RunThree(s: State, events: seq<Event>, a: Event, b: Event, c: Event)
    ensures Run(s, events + [a, b, c]) == Next(Next(Next(Run(s, events), a), b), c)
  {
    hide Run, Next;
    var first, second := events + [a], events + [a, b];
    assert first + [b] == second && second + [c] == events + [a, b, c];
    RunAppend(s, events, a);
    RunAppend(s, first, b);
    RunAppend(s, second, c);
  }

  lemma EmptyRun(s: State)
    ensures Run(s, []) == s
  {
  }

  // ---------------------------------------------------------------- StartTransaction

  /** A frame that waits for no write is answered when it is read. */
  predicate Refused(s: State, after: State, id: nat) {
    after == s.(handlers := s.handlers[id := Answered(false)])
  }

  /** A start is stored unless it lies below the start meter or above the stop meter of an earlier remote start. */
  predicate StartFits(row: Row, meterWh: nat) {
    && (row.start.Some? ==> row.start.value <= meterWh)
    && (row.stop.Some? ==> meterWh <= row.stop.value)
  }

  function StartRun(id: nat, meterWh: nat): seq<Event> {
    [StartFrame(id, meterWh), StartWrite(id), StartNotify(id)]
  }

  /**
    Undisturbed, a StartTransaction is accepted for a pending remote start exactly when it fits; the row
    is ACTIVE from then on at that meter, and the waiter is told. On an active row it is accepted and
    announced exactly when it does not lie below the start, and nothing is stored. Else it is refused.
   */
  ghost predicate StartEnds(s: State, after: State, id: nat, meterWh: nat)
    requires Inv(s)
  {
    if s.row.Some? && s.row.value.status == REMOTE_START_PENDING && StartFits(s.row.value, meterWh) then
      && after.handlers == s.handlers[id := Answered(true)] && after.published == s.published
      && after.row == Some(Row(ACTIVE, s.row.value.version + 1, Some(meterWh), Some(meterWh), s.row.value.stop))
      && after.notices == s.notices + [StartNotice(meterWh)]
    else if s.row.Some? && s.row.value.status == ACTIVE && s.row.value.start.value <= meterWh then
      after == To(s, id, Answered(true)).(notices := s.notices + [StartNotice(meterWh)])
    else Refused(s, after, id)
  }

  /** A StartTransaction with no other step in between ends so. */
  lemma StartIsAnswered(s: State, id: nat, meterWh: nat)
    requires Inv(s) && id !in s.handlers
    ensures StartEnds(s, Run(s, StartRun(id, meterWh)), id, meterWh)
  {
    hide Run, Next, StartEnds;
    RunThree(s, [], StartFrame(id, meterWh), StartWrite(id), StartNotify(id));
    EmptyRun(s);
    assert [] + StartRun(id, meterWh) == StartRun(id, meterWh);
    StartSteps(s, id, meterWh);
  }

  lemma StartSteps(s: State, id: nat, meterWh: nat)
    requires Inv(s) && id !in s.handlers
    ensures StartEnds(s, Next(Next(Next(s, StartFrame(id, meterWh)), StartWrite(id)), StartNotify(id)), id, meterWh)
  {
  }

  // ---------------------------------------------------------------- StopTransaction

  /** The meter does not run backwards. */
  predicate RunsOn(row: Row, meterWh: nat) {
    && (row.last.Some? ==> row.last.value <= meterWh)
    && (row.last.None? && row.start.Some? ==> row.start.value <= meterWh)
  }

  function StopRun(id: nat, meterWh: nat, delivered: bool): seq<Event> {
    [StopFrame(id, meterWh)] + [StopWrite(id), StopPublish(id, delivered), StopNotify(id)]
  }

  /**
    Undisturbed, a StopTransaction of a running transaction whose meter runs on completes the row at that
    meter and is published; it is accepted and announced exactly when the publication succeeds. On a
    completed row it is accepted and nothing happens; on one that never ran it is accepted and announced,
    though nothing is stored; else it is refused.
   */
  predicate StopEnds(s: State, after: State, id: nat, meterWh: nat, delivered: bool) {
    if s.row.Some? && s.row.value.status == COMPLETED then after == To(s, id, Answered(true))
    else if s.row.None? || !RunsOn(s.row.value, meterWh) then Refused(s, after, id)
    else if s.row.value.status == ACTIVE || s.row.value.status == STOPPING then
      && after.row == Some(Row(COMPLETED, s.row.value.version + 1, s.row.value.start, Some(meterWh), Some(meterWh)))
      && after.handlers == s.handlers[id := Answered(delivered)]
      && after.published == s.published + [StoppedAt(meterWh)]
      && after.notices == (if delivered then s.notices + [StopNotice(meterWh)] else s.notices)
    else after == To(s, id, Answered(true)).(notices := s.notices + [StopNotice(meterWh)])
  }

  /** A StopTransaction with no other step in between ends so. */
  lemma StopIsAnswered(s: State, id: nat, meterWh: nat, delivered: bool)
    requires Inv(s) && id !in s.handlers
    ensures StopEnds(s, Run(s, StopRun(id, meterWh, delivered)), id, meterWh, delivered)
  {
    hide Run, Next, StopEnds;
    RunAppend(s, [], StopFrame(id, meterWh));
    assert [] + [StopFrame(id, meterWh)] == [StopFrame(id, meterWh)];
    EmptyRun(s);
    RunThree(s, [StopFrame(id, meterWh)], StopWrite(id), StopPublish(id, delivered), StopNotify(id));
    StopSteps(s, id, meterWh, delivered);
  }

  /** What reading and writing the frame leave: an answer, a stored stop, or a notification without one. */
  predicate StopStored(s: State, written: State, id: nat, meterWh: nat) {
    if s.row.Some? && s.row.value.status == COMPLETED then written == To(s, id, Answered(true))
    else if s.row.None? || !RunsOn(s.row.value, meterWh) then Refused(s, written, id)
    else if s.row.value.status == ACTIVE || s.row.value.status == STOPPING then
      && written.row == Some(Row(COMPLETED, s.row.value.version + 1, s.row.value.start, Some(meterWh), Some(meterWh)))
      && written.handlers == s.handlers[id := StopPublishing(meterWh)]
      && written.published == s.published && written.notices == s.notices
    else written.handlers == s.handlers[id := StopNotifying(meterWh)] && written == s.(handlers := written.handlers)
  }

  lemma StopIsStored(s: State, id: nat, meterWh: nat)
    requires Inv(s) && id !in s.handlers
    ensures StopStored(s, Next(Next(s, StopFrame(id, meterWh)), StopWrite(id)), id, meterWh)
  {
  }

  lemma StoredStopEnds(s: State, written: State, id: nat, meterWh: nat, delivered: bool)
    requires StopStored(s, written, id, meterWh)
    ensures StopEnds(s, Next(Next(written, StopPublish(id, delivered)), StopNotify(id)), id, meterWh, delivered)
  {
    hide RunsOn;
  }

  lemma StopSteps(s: State, id: nat, meterWh: nat, delivered: bool)
    requires Inv(s) && id !in s.handlers
    ensures
      var written := Next(Next(s, StopFrame(id, meterWh)), StopWrite(id));
      StopEnds(s, Next(Next(written, StopPublish(id, delivered)), StopNotify(id)), id, meterWh, delivered)
  {
    StopIsStored(s, id, meterWh);
    hide Next, StopStored, StopEnds, Inv;
    StoredStopEnds(s, Next(Next(s, StopFrame(id, meterWh)), StopWrite(id)), id, meterWh, delivered);
  }

  // ---------------------------------------------------------------- MeterValues

  /** A frame with one sample: the bare register in watt-hours. */
  function OneSample(meterWh: nat): seq<Sample> {
    [[SampledValue(None, None, Some(meterWh as real))]]
  }

  function MeterRun(id: nat, meterWh: nat, delivered: bool): seq<Event> {
    [MeterFrame(id, OneSample(meterWh)), MeterWrite(id), Reread(id)] + [Publish(id, delivered)] + [MeterWrite(id)]
  }

  /**
    Undisturbed, a MeterValues frame with the register at some watt-hours is taken up for an active or
    stopping transaction whose meter runs on: it is the last meter from then on and is published, and the
    frame is accepted exactly when the publication succeeds. Else it is refused.
   */
  predicate SampleEnds(s: State, after: State, id: nat, meterWh: nat, delivered: bool) {
    if TakesSample(s.row, meterWh) then
      && after.row == Some(s.row.value.(version := s.row.value.version + 1, last := Some(meterWh)))
      && after.handlers == s.handlers[id := Answered(delivered)]
      && after.published == s.published + [MeterValue(meterWh)] && after.notices == s.notices
    else Refused(s, after, id)
  }

  /** A frame of one sample with no other step in between ends so. */
  lemma SampleIsAnswered(s: State, id: nat, meterWh: nat, delivered: bool)
    requires Inv(s) && id !in s.handlers
    ensures SampleEnds(s, Run(s, MeterRun(id, meterWh, delivered)), id, meterWh, delivered)
  {
    hide Run, Next, SampleEnds;
    var samples := OneSample(meterWh);
    var read := [MeterFrame(id, samples), MeterWrite(id), Reread(id)];
    RunThree(s, [], MeterFrame(id, samples), MeterWrite(id), Reread(id));
    assert [] + read == read;
    EmptyRun(s);
    RunAppend(s, read, Publish(id, delivered));
    RunAppend(s, read + [Publish(id, delivered)], MeterWrite(id));
    SampleSteps(s, id, meterWh, delivered);
  }

  lemma OneSampleReads(known: Row, meterWh: nat)
    ensures NextMeter(known, OneSample(meterWh)) == if RunsOn(known, meterWh) then Some(meterWh) else None
  {
    WholeMetersAreExact(meterWh, None, None, known.last);
    hide Extract;
  }

  predicate TakesSample(row: Option<Row>, meterWh: nat) {
    row.Some? && (row.value.status == ACTIVE || row.value.status == STOPPING) && RunsOn(row.value, meterWh)
  }

  /** What reading, writing and reading again leave: an event to publish, or a refusal. */
  predicate SampleStored(s: State, reread: State, id: nat, meterWh: nat) {
    if TakesSample(s.row, meterWh) then
      var stored := s.row.value.(version := s.row.value.version + 1, last := Some(meterWh));
      && reread.row == Some(stored) && reread.handlers == s.handlers[id := Publishing(stored, meterWh, [])]
      && reread.published == s.published && reread.notices == s.notices
    else Refused(s, reread, id)
  }

  lemma SampleIsStored(s: State, id: nat, meterWh: nat)
    requires Inv(s) && id !in s.handlers
    ensures
      var reread := Next(Next(Next(s, MeterFrame(id, OneSample(meterWh))), MeterWrite(id)), Reread(id));
      SampleStored(s, reread, id, meterWh)
  {
    assert OneSample(meterWh)[1..] == [];
    if s.row.Some? {
      OneSampleReads(s.row.value, meterWh);
    }
    hide NextMeter;
  }

  lemma StoredSampleEnds(s: State, reread: State, id: nat, meterWh: nat, delivered: bool)
    requires SampleStored(s, reread, id, meterWh)
    ensures SampleEnds(s, Next(Next(reread, Publish(id, delivered)), MeterWrite(id)), id, meterWh, delivered)
  {
    hide TakesSample, NextMeter, MeterCheck;
  }

  lemma SampleSteps(s: State, id: nat, meterWh: nat, delivered: bool)
    requires Inv(s) && id !in s.handlers
    ensures
      var reread := Next(Next(Next(s, MeterFrame(id, OneSample(meterWh))), MeterWrite(id)), Reread(id));
      SampleEnds(s, Next(Next(reread, Publish(id, delivered)), MeterWrite(id)), id, meterWh, delivered)
  {
    SampleIsStored(s, id, meterWh);
    hide Next, SampleStored, SampleEnds, Inv;
    var reread := Next(Next(Next(s, MeterFrame(id, OneSample(meterWh))), MeterWrite(id)), Reread(id));
    StoredSampleEnds(s, reread, id, meterWh, delivered);
  }

  // ---------------------------------------------------------------- remote commands and late writes

  /** The writes of `startSession`, `stopSession` and `markTransactionFailed` keep every meter and take the next version. */
  lemma RemoteWrites(s: State)
    ensures s.row.None? ==>
      && Next(s, RemoteStart) == s.(row := Some(Row(REMOTE_START_PENDING, 1, None, None, None)))
      && Next(s, RemoteStop) == s && Next(s, MarkFailed) == s
    ensures s.row.Some? ==>
      var row := s.row.value;
      && Next(s, RemoteStart) == s.(row := Some(row.(status := REMOTE_START_PENDING, version := row.version + 1)))
      && Next(s, RemoteStop) == s.(row := Some(row.(status := STOPPING, version := row.version + 1)))
      && (row.status == REMOTE_START_PENDING || row.status == STOPPING ==>
            Next(s, MarkFailed) == s.(row := Some(row.(status := FAILED, version := row.version + 1))))
      && (row.status != REMOTE_START_PENDING && row.status != STOPPING ==> Next(s, MarkFailed) == s)
  {
  }

  /** A handler whose row has moved on stores nothing: start and sample are refused, a stop is still announced. */
  lemma LateWritesStoreNothing(s: State, id: nat)
    requires s.row.Some? && id in s.handlers
    ensures
      var handler := s.handlers[id];
      && (handler.StartWriting? && s.row.value.version != handler.known.version ==>
            Next(s, StartWrite(id)) == To(s, id, Answered(false)))
      && (handler.Metering? && handler.samples != [] && s.row.value.version != handler.known.version ==>
            Next(s, MeterWrite(id)) == To(s, id, Answered(false)))
      && (handler.StopWriting? && s.row.value.version != handler.known.version ==>
            Next(s, StopWrite(id)) == To(s, id, StopNotifying(handler.meterWh)))
  {
    hide NextMeter;
  }
}
