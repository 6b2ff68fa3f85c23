/** What the stored meters of an OCPP transaction do over whole runs, and where they come apart. */
module OcppMeterOrder {
  import opened Common
  import opened MeterSample
  import opened OcppTransactions

  predicate AtMost(a: Option<nat>, b: Option<nat>) {
    a.None? || (b.Some? && a.value <= b.value)
  }

  function LastOf(s: State): Option<nat> {
    if s.row.Some? then s.row.value.last else None
  }

  function StatusOf(s: State): Option<TxStatus> {
    if s.row.Some? then Some(s.row.value.status) else None
  }

  // ---------------------------------------------------------------- the last meter

  /** A StartTransaction that is about to be stored with a meter under the last one of an earlier epoch. */
  predicate StartsBelowLast(s: State, e: Event) {
    && e.StartWrite? && e.id in s.handlers && s.handlers[e.id].StartWriting? && s.row.Some?
    && StartMatches(s.row.value, s.handlers[e.id].known)
    && MeterCheck(Started(s.row.value, s.handlers[e.id].meterWh))
    && !AtMost(s.row.value.last, Some(s.handlers[e.id].meterWh))
  }

  /** The last meter falls in exactly one kind of step. */
  lemma LastFallsOnlyAtAStart(s: State, e: Event)
    requires Inv(s)
    ensures AtMost(LastOf(s), LastOf(Next(s, e))) <==> !StartsBelowLast(s, e)
  {
  }

  predicate NoRemoteStart(events: seq<Event>) {
    forall i :: 0 <= i < |events| ==> !events[i].RemoteStart?
  }

  lemma StaysOutOfPending(s: State, e: Event)
    requires s.row.Some? && s.row.value.status != REMOTE_START_PENDING && !e.RemoteStart?
    ensures Next(s, e).row.Some? && Next(s, e).row.value.status != REMOTE_START_PENDING
  {
  }

  /**
    Within one epoch, from a StartTransaction to the next remote start, the last meter never falls:
    whatever frames arrive on whatever sockets, however stale the handlers are.
   */
  lemma {:induction false} LastNeverFallsWithinAnEpoch(s: State, events: seq<Event>)
    requires Inv(s) && s.row.Some? && s.row.value.status != REMOTE_START_PENDING
    requires NoRemoteStart(events)
    ensures Inv(Run(s, events))
    ensures Run(s, events).row.Some? && Run(s, events).row.value.status != REMOTE_START_PENDING
    ensures AtMost(LastOf(s), LastOf(Run(s, events)))
  {
    if events != [] {
      var front, e := events[..|events| - 1], events[|events| - 1];
      LastNeverFallsWithinAnEpoch(s, front);
      NextKeepsInv(Run(s, front), e);
      LastFallsOnlyAtAStart(Run(s, front), e);
      assert e == events[|events| - 1];
      StaysOutOfPending(Run(s, front), e);
    }
  }

  // ---------------------------------------------------------------- the constraint

  /** A write that finds the row as it was read and is still refused by the database constraint. */
  predicate RefusedByCheck(s: State, e: Event) {
    && s.row.Some?
    && (e.StartWrite? || e.MeterWrite? || e.StopWrite?) && e.id in s.handlers
    && var row, handler := s.row.value, s.handlers[e.id];
    && match e
       case StartWrite(_) =>
         handler.StartWriting? && StartMatches(row, handler.known) && !MeterCheck(Started(row, handler.meterWh))
       case MeterWrite(_) =>
         && handler.Metering? && MeterMatches(row, handler.known)
         && NextMeter(handler.known, handler.samples).Some?
         && !MeterCheck(Metered(row, NextMeter(handler.known, handler.samples).value))
       case _ =>
         handler.StopWriting? && StopMatches(row, handler.known) && !MeterCheck(Stopped(row, handler.meterWh))
  }

  /**
    The handlers' own comparisons make the constraint redundant for meter values and stops. It is hit
    exactly when a StartTransaction of a later epoch starts above the stop meter an earlier one left.
   */
  lemma CheckGuardsOnlyLaterStarts(s: State, e: Event)
    requires Inv(s)
    ensures RefusedByCheck(s, e) <==>
      (&& e.StartWrite? && s.row.Some? && e.id in s.handlers && s.handlers[e.id].StartWriting?
       && StartMatches(s.row.value, s.handlers[e.id].known)
       && s.row.value.stop.Some? && s.row.value.stop.value < s.handlers[e.id].meterWh)
  {
  }

  // ---------------------------------------------------------------- completed rows

  /** COMPLETED is not final: a remote start or a remote stop takes the row out of it, and nothing else. */
  lemma CompletedIsLeftOnlyByRemoteSteps(s: State, e: Event)
    requires Inv(s) && StatusOf(s) == Some(COMPLETED)
    ensures StatusOf(Next(s, e)) != Some(COMPLETED) <==> e.RemoteStart? || e.RemoteStop?
  {
  }

  predicate StopsAtLast(s: State) {
    StatusOf(s) == Some(COMPLETED) ==> s.row.value.stop == s.row.value.last
  }

  /**
    A MeterValues handler that has read the row again after its previous sample, found it completed in
    between, and goes on to write a larger sample all the same.
   */
  predicate WritesLateSample(s: State, e: Event) {
    && e.MeterWrite? && StatusOf(s) == Some(COMPLETED) && e.id in s.handlers && s.handlers[e.id].Metering?
    && var handler := s.handlers[e.id];
    && handler.known.version == s.row.value.version
    && var meter := NextMeter(handler.known, handler.samples);
    && meter.Some? && meter != s.row.value.last
  }

  /** "A completed transaction's stop meter is its last meter" breaks in exactly one kind of step. */
  lemma StopIsLastUnlessLateSample(s: State, e: Event)
    requires Inv(s) && StopsAtLast(s)
    ensures StopsAtLast(Next(s, e)) <==> !WritesLateSample(s, e)
  {
    if e.MeterWrite? && s.row.Some? && e.id in s.handlers {
      assert HandlerInv(s.handlers[e.id], s.row.value);
    }
  }

  // A concrete way to get there, from any row a frame with two samples is working on.

  function Register(wh: nat): Sample {
    [SampledValue(None, None, Some(wh as real))]
  }

  lemma RegisterReads(wh: nat, previous: Option<nat>)
    ensures Extract(Register(wh), previous) == Extracted(wh, 0.0, None)
  {
    var sample := Register(wh);
    assert sample[..0] == [];
    assert ReadFrom(sample[..0], previous) == Some(Reading(previous, 0.0, None));
    assert (wh as real + 0.5).Floor == wh;
  }

  /** The frame has one sample to go and the row is as it was read. */
  predicate Midway(s: State, id: nat, row: Row, samples: seq<Sample>) {
    s.row == Some(row) && id in s.handlers && s.handlers[id] == Metering(row, samples)
  }

  lemma FirstSampleIsStored(s: State, id: nat, row: Row, first: nat, second: nat)
    requires RowInv(row) && Floor(row) <= first && Midway(s, id, row, [Register(first), Register(second)])
    ensures Next(s, MeterWrite(id)) == To(s, id, Rereading(first, [Register(second)])).(row := Some(Metered(row, first)))
  {
    RegisterReads(first, row.last);
    assert [Register(first), Register(second)][1..] == [Register(second)];
  }

  lemma OtherSocketStops(s: State, stopper: nat, row: Row, first: nat)
    requires s.row == Some(row) && row.last == Some(first) && stopper !in s.handlers
    requires RowInv(row) && (row.status == ACTIVE || row.status == STOPPING)
    ensures
      var stopped := Next(Next(s, StopFrame(stopper, first)), StopWrite(stopper));
      && stopped.row == Some(Stopped(row, first))
      && stopped.handlers == s.handlers[stopper := StopPublishing(first)]
  {
  }

  lemma SecondSampleFollows(s: State, id: nat, row: Row, first: nat, second: nat)
    requires s.row == Some(row) && id in s.handlers && s.handlers[id] == Rereading(first, [Register(second)])
    requires RowInv(row) && row.last == Some(first) && first < second
    ensures Next(Next(Next(s, Reread(id)), Publish(id, true)), MeterWrite(id)).row == Some(Metered(row, second))
  {
    var published := Next(Next(s, Reread(id)), Publish(id, true));
    assert Midway(published, id, row, [Register(second)]);
    RegisterReads(second, row.last);
  }

  /**
    Two sockets are enough: while a frame with two growing samples is between its samples, a
    StopTransaction on another socket completes the row at the first one. The second sample is then
    stored above the stop meter of the completed row.
   */
  lemma LateSampleOvertakesTheStop(s: State, id: nat, stopper: nat, row: Row, first: nat, second: nat)
    requires RowInv(row) && (row.status == ACTIVE || row.status == STOPPING)
    requires Floor(row) <= first < second
    requires Midway(s, id, row, [Register(first), Register(second)])
    requires stopper !in s.handlers
    ensures
      var stopped := Next(Next(Next(s, MeterWrite(id)), StopFrame(stopper, first)), StopWrite(stopper));
      var after := Next(Next(Next(stopped, Reread(id)), Publish(id, true)), MeterWrite(id));
      && StatusOf(after) == Some(COMPLETED)
      && after.row.value.stop == Some(first) && after.row.value.last == Some(second)
      && !StopsAtLast(after)
  {
    FirstSampleIsStored(s, id, row, first, second);
    var written := Next(s, MeterWrite(id));
    OtherSocketStops(written, stopper, Metered(row, first), first);
    var stopped := Next(Next(written, StopFrame(stopper, first)), StopWrite(stopper));
    SecondSampleFollows(stopped, id, Stopped(Metered(row, first), first), first, second);
  }

  lemma RunAppend(s: State, events: seq<Event>, e: Event)
    ensures Run(s, events + [e]) == Next(Run(s, events), e)
  {
  }

  lemma RunThree(s: State, events: seq<Event>, a: Event, b: Event, c: Event)
    ensures Run(s, events + [a, b, c]) == Next(Next(Next(Run(s, events), a), b), c)
  {
    RunAppend(s, events, a);
    RunAppend(s, events + [a], b);
    RunAppend(s, events + [a] + [b], c);
    assert events + [a, b, c] == events + [a] + [b] + [c];
  }

  lemma ReachesMidway(first: nat, second: nat)
    ensures
      var s := Next(Next(Next(Next(EMPTY, RemoteStart), StartFrame(1, 0)), StartWrite(1)),
                    MeterFrame(2, [Register(first), Register(second)]));
      && Midway(s, 2, Row(ACTIVE, 2, Some(0), Some(0), None), [Register(first), Register(second)])
      && 3 !in s.handlers
  {
  }

  /** The same as a whole run from nothing, for any two growing samples. */
  lemma CompletedNeedNotStopAtLast(first: nat, second: nat) returns (events: seq<Event>)
    requires first < second
    ensures !StopsAtLast(Run(EMPTY, events))
  {
    var samples := [Register(first), Register(second)];
    var e1 := [RemoteStart];
    var e2 := e1 + [StartFrame(1, 0), StartWrite(1), MeterFrame(2, samples)];
    var e3 := e2 + [MeterWrite(2), StopFrame(3, first), StopWrite(3)];
    events := e3 + [Reread(2), Publish(2, true), MeterWrite(2)];
    assert Run(EMPTY, e1) == Next(EMPTY, RemoteStart) by {
      assert e1[..0] == [];
    }
    RunThree(EMPTY, e1, StartFrame(1, 0), StartWrite(1), MeterFrame(2, samples));
    RunThree(EMPTY, e2, MeterWrite(2), StopFrame(3, first), StopWrite(3));
    RunThree(EMPTY, e3, Reread(2), Publish(2, true), MeterWrite(2));
    ReachesMidway(first, second);
    LateSampleOvertakesTheStop(Run(EMPTY, e2), 2, 3, Row(ACTIVE, 2, Some(0), Some(0), None), first, second);
  }

  // Two ways to keep it: frames with one sample, or one connection.

  predicate OneSampleEach(events: seq<Event>) {
    forall i :: 0 <= i < |events| && events[i].MeterFrame? ==> |events[i].samples| <= 1
  }

  predicate LastSampleInHand(handler: Handler) {
    match handler
    case Metering(known, samples) => samples == [] || (|samples| == 1 && known.status != COMPLETED)
    case Rereading(_, samples) => samples == []
    case Publishing(_, _, samples) => samples == []
    case _ => true
  }

  ghost predicate LastSamplesInHand(s: State) {
    forall id :: id in s.handlers ==> LastSampleInHand(s.handlers[id])
  }

  lemma OneSampleStep(s: State, e: Event)
    requires LastSamplesInHand(s) && (e.MeterFrame? ==> |e.samples| <= 1)
    ensures LastSamplesInHand(Next(s, e))
  {
  }

  lemma NoLateSampleInHand(s: State, e: Event)
    requires Inv(s) && LastSamplesInHand(s)
    ensures !WritesLateSample(s, e)
  {
  }

  /** With one sample in every MeterValues frame, completed transactions stop at their last meter in every run. */
  lemma {:induction false} SingleSamplesStopAtLast(events: seq<Event>)
    requires OneSampleEach(events)
    ensures Inv(Run(EMPTY, events)) && LastSamplesInHand(Run(EMPTY, events)) && StopsAtLast(Run(EMPTY, events))
  {
    if events != [] {
      var front, e := events[..|events| - 1], events[|events| - 1];
      SingleSamplesStopAtLast(front);
      NextKeepsInv(Run(EMPTY, front), e);
      assert e == events[|events| - 1];
      OneSampleStep(Run(EMPTY, front), e);
      NoLateSampleInHand(Run(EMPTY, front), e);
      StopIsLastUnlessLateSample(Run(EMPTY, front), e);
    }
  }

  predicate IsFrame(e: Event) {
    e.StartFrame? || e.MeterFrame? || e.StopFrame?
  }

  ghost predicate Quiet(s: State) {
    forall id :: id in s.handlers ==> s.handlers[id].Answered?
  }

  /** One connection: `context.processing` starts a frame only when the one before is answered. */
  ghost predicate OneConnection(events: seq<Event>) {
    events != [] ==>
      && OneConnection(events[..|events| - 1])
      && (IsFrame(events[|events| - 1]) ==> Quiet(Run(EMPTY, events[..|events| - 1])))
  }

  ghost predicate OneBusy(s: State) {
    forall i, j :: i in s.handlers && j in s.handlers && i != j ==> s.handlers[i].Answered? || s.handlers[j].Answered?
  }

  predicate MeteringOpenRow(handler: Handler, row: Option<Row>) {
    && (handler.Metering? || handler.Publishing? ==> handler.known.status != COMPLETED)
    && (handler.Metering? || handler.Publishing? || handler.Rereading? ==> row.Some? && row.value.status != COMPLETED)
  }

  ghost predicate MetersOpenRows(s: State) {
    OneBusy(s) && forall id :: id in s.handlers ==> MeteringOpenRow(s.handlers[id], s.row)
  }

  lemma StaysOneBusy(s: State, e: Event)
    requires OneBusy(s) && (IsFrame(e) ==> Quiet(s))
    ensures OneBusy(Next(s, e))
  {
  }

  lemma OneConnectionStep(s: State, e: Event)
    requires Inv(s) && MetersOpenRows(s) && (IsFrame(e) ==> Quiet(s))
    ensures MetersOpenRows(Next(s, e))
  {
    StaysOneBusy(s, e);
    if e.StopWrite? && e.id in s.handlers && s.handlers[e.id].StopWriting? {
      assert forall id :: id in s.handlers && id != e.id ==> s.handlers[id].Answered?;
    }
  }

  /** On one connection the same holds for frames with any number of samples. */
  lemma {:induction false} OneConnectionStopsAtLast(events: seq<Event>)
    requires OneConnection(events)
    ensures Inv(Run(EMPTY, events)) && MetersOpenRows(Run(EMPTY, events)) && StopsAtLast(Run(EMPTY, events))
  {
    if events != [] {
      var front, e := events[..|events| - 1], events[|events| - 1];
      OneConnectionStopsAtLast(front);
      NextKeepsInv(Run(EMPTY, front), e);
      OneConnectionStep(Run(EMPTY, front), e);
      assert !WritesLateSample(Run(EMPTY, front), e);
      StopIsLastUnlessLateSample(Run(EMPTY, front), e);
    }
  }

  // ---------------------------------------------------------------- what the waiters are told

  /**
    A StopTransaction that lost its compare-and-set announces a meter nobody stored: after the write
    step the announced meter is the row's stop meter exactly when the write went through or the row
    held that very meter already.
   */
  lemma AnnouncedStopIsStoredIff(s: State, id: nat)
    requires Inv(s) && s.row.Some? && id in s.handlers && s.handlers[id].StopWriting?
    ensures
      var known, meterWh := s.handlers[id].known, s.handlers[id].meterWh;
      var after := StopWriteStep(s, id);
      && (after.handlers[id] == StopPublishing(meterWh) || after.handlers[id] == StopNotifying(meterWh))
      && (after.row.value.stop == Some(meterWh) <==>
            (known == s.row.value && (known.status == ACTIVE || known.status == STOPPING))
            || s.row.value.stop == Some(meterWh))
  {
  }

  /** A repeated StartTransaction announces its own meter, which the row holds only if it is the same. */
  lemma RepeatedStartAnnouncesItsOwnMeter(s: State, id: nat, meterWh: nat)
    requires Inv(s) && StatusOf(s) == Some(ACTIVE) && id !in s.handlers
    ensures
      var after := Next(s, StartFrame(id, meterWh));
      && after.row == s.row
      && (meterWh < s.row.value.start.value ==> after.notices == s.notices)
      && (meterWh >= s.row.value.start.value ==> after.notices == s.notices + [StartNotice(meterWh)])
  {
  }

  // Both as runs from nothing.

  function Activated(): seq<Event> {
    [RemoteStart, StartFrame(1, 0), StartWrite(1)]
  }

  lemma ActivatedRow()
    ensures
      var s := Run(EMPTY, Activated());
      && s.row == Some(Row(ACTIVE, 2, Some(0), Some(0), None))
      && s.handlers == map[1 := StartNotifying(0)] && s.notices == []
  {
    RunThree(EMPTY, [], RemoteStart, StartFrame(1, 0), StartWrite(1));
    assert [] + [RemoteStart, StartFrame(1, 0), StartWrite(1)] == Activated();
  }

  lemma StopLoses(s: State, meterWh: nat)
    requires s.row == Some(Row(ACTIVE, 2, Some(0), Some(0), None)) && 2 !in s.handlers
    ensures
      var after := Next(Next(Next(s, StopFrame(2, meterWh)), RemoteStop), StopWrite(2));
      after.row == Some(Row(STOPPING, 3, Some(0), Some(0), None)) && after.notices == s.notices
      && 2 in after.handlers && after.handlers[2] == StopNotifying(meterWh)
  {
  }

  /** A remote stop between the handler's read and its write: the waiter is told a stop meter the row never gets. */
  lemma LostStopIsAnnounced(meterWh: nat)
    ensures
      var s := Run(EMPTY, Activated() + [StopFrame(2, meterWh), RemoteStop, StopWrite(2)] + [StopNotify(2)]);
      s.notices == [StopNotice(meterWh)] && s.row.Some? && s.row.value.stop == None
  {
    hide Activated, Run;
    ActivatedRow();
    StopLoses(Run(EMPTY, Activated()), meterWh);
    RunThree(EMPTY, Activated(), StopFrame(2, meterWh), RemoteStop, StopWrite(2));
    RunAppend(EMPTY, Activated() + [StopFrame(2, meterWh), RemoteStop, StopWrite(2)], StopNotify(2));
  }

  /** A StartTransaction repeated with another meter: the waiter is told a start meter the row does not hold. */
  lemma RepeatedStartIsAnnounced(meterWh: nat)
    requires meterWh > 0
    ensures
      var s := Run(EMPTY, Activated() + [StartFrame(2, meterWh)]);
      s.notices == [StartNotice(meterWh)] && s.row.Some? && s.row.value.start == Some(0)
  {
    ActivatedRow();
    RunAppend(EMPTY, Activated(), StartFrame(2, meterWh));
  }
}
