/**
  The row of the end-to-end model is the row of OcppTransactions: every frame in hand is one of its
  handlers, and every step of frames and callers is one of its steps, or none.
 */
module TransactionRefinement {
  import opened Common
  import opened SessionLifecycle
  import opened Charging
  import opened MeterSample
  import opened OcppEndToEnd
  import T = OcppTransactions

  /** The handler that a frame in hand stands for. */
  function HandlerOf(frame: Frame): Option<T.Handler> {
    match frame
    case NoFrame => None
    case StartWriting(known, meterWh) => Some(T.StartWriting(known, meterWh))
    case Metering(known, samples) => Some(T.Metering(known, samples))
    case Rereading(meterWh, samples) => Some(T.Rereading(meterWh, samples))
    case MeterPublishing(known, meterWh, samples) => Some(T.Publishing(known, meterWh, samples))
    case MeterRecording(known, meterWh, samples, _) => Some(T.Publishing(known, meterWh, samples))
    case StopWriting(known, meterWh) => Some(T.StopWriting(known, meterWh))
    case StopPublishing(meterWh) => Some(T.StopPublishing(meterWh))
    case StopHandling(meterWh, _) => Some(T.StopPublishing(meterWh))
    case StopCompleting(meterWh) => Some(T.StopPublishing(meterWh))
    case StopNotifying(meterWh) => Some(T.StopNotifying(meterWh))
  }

  /**
    The row is the same, and the frame in hand is the handler of that number; without one in hand that
    handler has nothing left to do but to answer, or has never been.
   */
  predicate Shows(t: T.State, s: State, id: nat) {
    && t.row == s.row
    && (HandlerOf(s.frame).Some? ==> id in t.handlers && t.handlers[id] == HandlerOf(s.frame).value)
    && (HandlerOf(s.frame).None? && id in t.handlers ==> t.handlers[id].Answered? || t.handlers[id].StartNotifying?)
  }

  /** What the relay's listener does for the handler: it goes on, it throws, or it is not through yet. */
  function Delivery(s: State, sid: nat, e: Event): Option<bool> {
    match e
    case MeterPublish => if s.frame.MeterPublishing? && !Exists(s.db, sid) then Some(false) else None
    case MeterRecord =>
      if s.frame.MeterRecording? then Some(MeterTx(s.db, sid, s.frame.session, s.frame.meterWh).Some?) else None
    case StopPublish =>
      if !s.frame.StopPublishing? then None
      else if !Exists(s.db, sid) then Some(false)
      else if s.db.sessions[sid].status == COMPLETED then Some(true) else None
    case StopHandle(now) =>
      if s.frame.StopHandling? && StopEventTx(s.db, sid, s.frame.session, now).None? then Some(false) else None
    case StopComplete(now, settled) =>
      if s.frame.StopCompleting? then Some(settled && CompleteTx(s.db, sid, s.frame.meterWh, now).Some?) else None
    case _ => None
  }

  /** The step of the transaction model that a step is, None where it moves neither row nor handler. */
  function TransactionEvent(s: State, sid: nat, e: Event, id: nat): Option<T.Event> {
    match e
    case RemoteStart => if s.claims > 0 then Some(T.RemoteStart) else None
    case MarkFailed => Some(T.MarkFailed)
    case StopMark(caller) => if caller in s.stops && s.stops[caller].MarkingRow? then Some(T.RemoteStop) else None
    case StartFrame(meterWh) => if s.frame.NoFrame? then Some(T.StartFrame(id, meterWh)) else None
    case StartWrite => Some(T.StartWrite(id))
    case MeterFrame(samples) => if s.frame.NoFrame? then Some(T.MeterFrame(id, samples)) else None
    case MeterWrite => Some(T.MeterWrite(id))
    case Reread => Some(T.Reread(id))
    case StopFrame(meterWh) => if s.frame.NoFrame? then Some(T.StopFrame(id, meterWh)) else None
    case StopWrite => Some(T.StopWrite(id))
    case StopNotify(_) => Some(T.StopNotify(id))
    case _ =>
      if Delivery(s, sid, e).None? then None
      else if s.frame.MeterPublishing? || s.frame.MeterRecording? then Some(T.Publish(id, Delivery(s, sid, e).value))
      else Some(T.StopPublish(id, Delivery(s, sid, e).value))
  }

  function After(t: T.State, e: Option<T.Event>): T.State {
    if e.Some? then T.Next(t, e.value) else t
  }

  lemma CallersShow(t: T.State, s: State, sid: nat, e: Event, id: nat)
    requires Shows(t, s, id) && !OfFrame(e)
    ensures Shows(After(t, TransactionEvent(s, sid, e, id)), CallerStep(s, sid, e), id)
  {
  }

  lemma MeterWriteShows(t: T.State, s: State, id: nat)
    requires Shows(t, s, id) && (s.frame.NoFrame? ==> id !in t.handlers)
    ensures Shows(T.Next(t, T.MeterWrite(id)), MeterWriteStep(s), id)
  {
    hide Extract, T.MeterCheck;
  }

  lemma StartsAndMetersShow(t: T.State, s: State, sid: nat, e: Event, id: nat)
    requires Shows(t, s, id) && (s.frame.NoFrame? ==> id !in t.handlers)
    requires e.StartFrame? || e.StartWrite? || e.MeterFrame? || e.Reread? || e.MeterPublish? || e.MeterRecord?
    ensures Shows(After(t, TransactionEvent(s, sid, e, id)), FrameStep(s, sid, e), id)
  {
    hide T.MeterCheck, MeterTx;
  }

  lemma StopsShow(t: T.State, s: State, sid: nat, e: Event, id: nat)
    requires Shows(t, s, id) && (s.frame.NoFrame? ==> id !in t.handlers)
    requires e.StopFrame? || e.StopWrite?
    ensures Shows(After(t, TransactionEvent(s, sid, e, id)), FrameStep(s, sid, e), id)
  {
    hide T.MeterCheck;
  }

  lemma ListenersShow(t: T.State, s: State, sid: nat, e: Event, id: nat)
    requires Shows(t, s, id)
    requires e.StopPublish? || e.StopHandle? || e.StopComplete? || e.StopNotify?
    ensures Shows(After(t, TransactionEvent(s, sid, e, id)), FrameStep(s, sid, e), id)
  {
    hide StopEventTx, CompleteTx;
  }

  lemma FramesShow(t: T.State, s: State, sid: nat, e: Event, id: nat)
    requires Shows(t, s, id) && OfFrame(e) && !e.Abort? && (s.frame.NoFrame? ==> id !in t.handlers)
    ensures Shows(After(t, TransactionEvent(s, sid, e, id)), FrameStep(s, sid, e), id)
  {
    if e.MeterWrite? {
      MeterWriteShows(t, s, id);
      hide T.Next, MeterWriteStep;
    } else if e.StopPublish? || e.StopHandle? || e.StopComplete? || e.StopNotify? {
      ListenersShow(t, s, sid, e, id);
      hide T.Next, Shows, FrameStep, TransactionEvent;
    } else if e.StopFrame? || e.StopWrite? {
      StopsShow(t, s, sid, e, id);
      hide T.Next, Shows, FrameStep, TransactionEvent;
    } else {
      StartsAndMetersShow(t, s, sid, e, id);
      hide T.Next, Shows, FrameStep, TransactionEvent;
    }
  }

  lemma StepShows(t: T.State, s: State, sid: nat, e: Event, id: nat)
    requires Shows(t, s, id) && !e.Abort? && (s.frame.NoFrame? ==> id !in t.handlers)
    ensures Shows(After(t, TransactionEvent(s, sid, e, id)), Next(s, sid, e), id)
  {
    if OfFrame(e) {
      FramesShow(t, s, sid, e, id);
    } else {
      CallersShow(t, s, sid, e, id);
    }
    hide T.Next, FrameStep, CallerStep, Shows, TransactionEvent;
  }

  /** A run of the transaction model that has used the numbers below a bound. */
  ghost predicate IsRun(t: T.State, events: seq<T.Event>, bound: nat) {
    t == T.Run(T.EMPTY, events) && forall id :: id in t.handlers ==> id < bound
  }

  lemma AfterIsRun(t: T.State, events: seq<T.Event>, bound: nat, s: State, sid: nat, e: Event, id: nat)
    requires IsRun(t, events, bound) && id <= bound
    ensures
      var step := TransactionEvent(s, sid, e, id);
      IsRun(After(t, step), if step.Some? then events + [step.value] else events, bound + 1)
  {
    var step := TransactionEvent(s, sid, e, id);
    if step.Some? {
      assert (events + [step.value])[..|events|] == events;
      StepAddsItsNumber(t, step.value, id);
    }
  }

  predicate NamesAtMost(e: T.Event, id: nat) {
    match e
    case RemoteStart => true
    case RemoteStop => true
    case MarkFailed => true
    case _ => e.id == id
  }

  lemma StepAddsItsNumber(t: T.State, e: T.Event, id: nat)
    requires NamesAtMost(e, id)
    ensures forall other :: other in T.Next(t, e).handlers ==> other in t.handlers || other == id
  {
    hide T.NextMeter, T.MeterCheck;
  }

  /**
    Every run of frames, callers and transactions around one connection moves the OCPP transaction as a run
    of OcppTransactions does, so what those runs keep holds for its row.
   */
  lemma {:induction false} RowsAreTransactionRows(s: State, sid: nat, events: seq<Event>)
    returns (run: seq<T.Event>, id: nat)
    requires s.row == None && s.frame.NoFrame?
    ensures IsRun(T.Run(T.EMPTY, run), run, |events|) && id <= |events|
    ensures Shows(T.Run(T.EMPTY, run), RunSystem(s, sid, events), id)
    ensures T.Run(T.EMPTY, run).row == RunSystem(s, sid, events).row
  {
    run, id := [], 0;
    if events != [] {
      var front, e := events[..|events| - 1], events[|events| - 1];
      var before, known := RowsAreTransactionRows(s, sid, front);
      var state, mid := T.Run(T.EMPTY, before), RunSystem(s, sid, front);
      id := if mid.frame.NoFrame? then |front| else known;
      if e.Abort? {
        run, id := before, |front|;
      } else {
        assert Shows(state, mid, id);
        StepShows(state, mid, sid, e, id);
        AfterIsRun(state, before, |front|, mid, sid, e, id);
        var step := TransactionEvent(mid, sid, e, id);
        run := if step.Some? then before + [step.value] else before;
      }
    }
  }
}
