/**
  The handlers of OcppTransactions are the ones that wake the waiters of OcppWakeup: whatever a frame or
  a remote command does to the transaction row and to the pending maps is a step of the wake-up protocol.
 */
module OcppHandlersWake {
  import opened Common
  import T = OcppTransactions
  import W = OcppWakeup

  /** The value that the second argument of `waitForValue` finds in the row. */
  function Stored(awaited: W.Awaited, row: Option<T.Row>): Option<nat> {
    if row.None? then None
    else if awaited == W.STARTS then (if row.value.status == T.ACTIVE then row.value.start else None)
    else if row.value.status == T.COMPLETED then row.value.stop
    else None
  }

  predicate Notifies(awaited: W.Awaited, handler: T.Handler) {
    if awaited == W.STARTS then handler.StartNotifying? else handler.StopPublishing? || handler.StopNotifying?
  }

  /** The notifications that handlers still have in front of them. */
  function Owed(awaited: W.Awaited, handlers: map<nat, T.Handler>): map<nat, W.Notice> {
    map id | id in handlers && Notifies(awaited, handlers[id]) ::
      W.Notice(handlers[id].meterWh, handlers[id].StopPublishing?)
  }

  /** The calls of `resolveStart` or `resolveStop` so far. */
  function Calls(awaited: W.Awaited, notices: seq<T.Notice>): nat {
    if notices == [] then 0
    else Calls(awaited, notices[..|notices| - 1])
         + (if notices[|notices| - 1].StartNotice? <==> awaited == W.STARTS then 1 else 0)
  }

  ghost predicate Fits(wake: W.State, s: T.State) {
    && wake.stored == Stored(wake.awaited, s.row)
    && wake.owed == Owed(wake.awaited, s.handlers)
    && wake.told == Calls(wake.awaited, s.notices)
  }

  // ---------------------------------------------------------------- one step

  /** What a StartTransaction means to those who wait for the start. */
  function StartSteps(s: T.State, e: T.Event): seq<W.Event> {
    match e
    case StartFrame(id, meterWh) =>
      if T.StartFrameStep(s, id, meterWh).notices != s.notices then [W.Announce(id, meterWh), W.Notify(id)] else []
    case StartWrite(id) =>
      if T.StartWriteStep(s, id).row != s.row then [W.Persist(id, s.handlers[id].meterWh)] else []
    case StartNotify(id) => if T.StartNotifyStep(s, id).notices != s.notices then [W.Notify(id)] else []
    case StopWrite(id) => if T.StopWriteStep(s, id).row != s.row then [W.Withdraw] else []
    case RemoteStart => [W.Withdraw]
    case RemoteStop => [W.Withdraw]
    case _ => []
  }

  /** What a StopTransaction means to those who wait for the stop. */
  function StopSteps(s: T.State, e: T.Event): seq<W.Event> {
    match e
    case StopWrite(id) =>
      var after := T.StopWriteStep(s, id);
      if after == s || !(id in after.handlers && Notifies(W.STOPS, after.handlers[id])) then []
      else if after.handlers[id].StopPublishing? then [W.Persist(id, after.handlers[id].meterWh)]
      else [W.Announce(id, after.handlers[id].meterWh)]
    case StopPublish(id, ok) =>
      if id in s.handlers && s.handlers[id].StopPublishing? then [if ok then W.Published(id) else W.Drop(id)] else []
    case StopNotify(id) => if T.StopNotifyStep(s, id).notices != s.notices then [W.Notify(id)] else []
    case RemoteStart => [W.Withdraw]
    case RemoteStop => [W.Withdraw]
    case _ => []
  }

  function Steps(awaited: W.Awaited, s: T.State, e: T.Event): seq<W.Event> {
    if awaited == W.STARTS then StartSteps(s, e) else StopSteps(s, e)
  }

  lemma RunOne(wake: W.State, e: W.Event)
    ensures W.Run(wake, [e]) == W.Next(wake, e)
  {
    W.RunAppend(wake, [], e);
  }

  lemma RunTwo(wake: W.State, e: W.Event, f: W.Event)
    ensures W.Run(wake, [e, f]) == W.Next(W.Next(wake, e), f)
  {
    RunOne(wake, e);
    W.RunAppend(wake, [e], f);
  }

  lemma OneMoreCall(awaited: W.Awaited, notices: seq<T.Notice>, notice: T.Notice)
    ensures Calls(awaited, notices + [notice])
         == Calls(awaited, notices) + (if notice.StartNotice? <==> awaited == W.STARTS then 1 else 0)
  {
  }

  /** Only the handler that moves changes what is owed. */
  lemma OwedMoves(awaited: W.Awaited, handlers: map<nat, T.Handler>, id: nat, handler: T.Handler)
    ensures
      Owed(awaited, handlers[id := handler]) ==
        if Notifies(awaited, handler) then Owed(awaited, handlers)[id := W.Notice(handler.meterWh, handler.StopPublishing?)]
        else Owed(awaited, handlers) - {id}
  {
  }

  /** A handler moves on without a notification before or behind it, and the row offers what it offered. */
  lemma QuietMoveFits(wake: W.State, s: T.State, after: T.State, id: nat)
    requires Fits(wake, s) && id in after.handlers && after.handlers == s.handlers[id := after.handlers[id]]
    requires !Notifies(wake.awaited, after.handlers[id])
    requires id in s.handlers ==> !Notifies(wake.awaited, s.handlers[id])
    requires Stored(wake.awaited, after.row) == Stored(wake.awaited, s.row)
    requires Calls(wake.awaited, after.notices) == Calls(wake.awaited, s.notices)
    ensures Fits(wake, after)
  {
    OwedMoves(wake.awaited, s.handlers, id, after.handlers[id]);
  }

  /** A write: the row offers the new meter and the handler owes its notification. */
  lemma PersistFits(wake: W.State, s: T.State, after: T.State, id: nat, meterWh: nat)
    requires Fits(wake, s) && id in after.handlers && after.handlers == s.handlers[id := after.handlers[id]]
    requires id in s.handlers && !Notifies(wake.awaited, s.handlers[id])
    requires Notifies(wake.awaited, after.handlers[id]) && after.handlers[id].meterWh == meterWh
    requires after.handlers[id].StopPublishing? <==> wake.awaited == W.STOPS
    requires Stored(wake.awaited, after.row) == Some(meterWh) && after.notices == s.notices
    ensures Fits(W.Run(wake, [W.Persist(id, meterWh)]), after)
  {
    RunOne(wake, W.Persist(id, meterWh));
    OwedMoves(wake.awaited, s.handlers, id, after.handlers[id]);
  }

  /** The notification of a handler that owes it. */
  lemma NotifyFits(wake: W.State, s: T.State, after: T.State, id: nat, notice: T.Notice)
    requires Fits(wake, s) && id in s.handlers && Notifies(wake.awaited, s.handlers[id]) && !s.handlers[id].StopPublishing?
    requires after.handlers == s.handlers[id := T.Answered(true)] && after.row == s.row
    requires after.notices == s.notices + [notice] && (notice.StartNotice? <==> wake.awaited == W.STARTS)
    ensures Fits(W.Run(wake, [W.Notify(id)]), after)
  {
    RunOne(wake, W.Notify(id));
    OwedMoves(wake.awaited, s.handlers, id, T.Answered(true));
    OneMoreCall(wake.awaited, s.notices, notice);
    assert id in wake.owed && wake.owed[id] == W.Notice(s.handlers[id].meterWh, false);
  }

  lemma WithdrawFits(wake: W.State, s: T.State, after: T.State)
    requires Fits(wake, s) && Stored(wake.awaited, after.row).None?
    requires Owed(wake.awaited, after.handlers) == Owed(wake.awaited, s.handlers) && after.notices == s.notices
    ensures Fits(W.Run(wake, [W.Withdraw]), after)
  {
    RunOne(wake, W.Withdraw);
  }

  // ---------------------------------------------------------------- starts

  /** A repeated StartTransaction notifies without writing anything. */
  lemma AnnouncedAtOnceFits(wake: W.State, s: T.State, after: T.State, id: nat, meterWh: nat)
    requires wake.awaited == W.STARTS && Fits(wake, s) && id !in s.handlers
    requires after == T.To(s, id, T.Answered(true)).(notices := s.notices + [T.StartNotice(meterWh)])
    ensures Fits(W.Run(wake, [W.Announce(id, meterWh), W.Notify(id)]), after)
  {
    hide W.Next, W.Run, Calls;
    RunTwo(wake, W.Announce(id, meterWh), W.Notify(id));
    AnnounceThenNotify(wake, id, meterWh);
    OneMoreCall(W.STARTS, s.notices, T.StartNotice(meterWh));
    OwedMoves(W.STARTS, s.handlers, id, T.Answered(true));
    assert wake.owed - {id} == wake.owed;
  }

  lemma AnnounceThenNotify(wake: W.State, id: nat, meterWh: nat)
    requires id !in wake.owed
    ensures
      var after := W.Next(W.Next(wake, W.Announce(id, meterWh)), W.Notify(id));
      && after.awaited == wake.awaited && after.stored == wake.stored && after.owed == wake.owed
      && after.told == wake.told + 1
  {
    var announced := W.Next(wake, W.Announce(id, meterWh));
    assert announced.owed - {id} == wake.owed;
  }

  lemma StartFrameFits(wake: W.State, s: T.State, id: nat, meterWh: nat)
    requires wake.awaited == W.STARTS && Fits(wake, s)
    ensures Fits(W.Run(wake, StartSteps(s, T.StartFrame(id, meterWh))), T.StartFrameStep(s, id, meterWh))
  {
    var after := T.StartFrameStep(s, id, meterWh);
    if after.notices != s.notices {
      AnnouncedAtOnceFits(wake, s, after, id, meterWh);
    } else if after != s {
      QuietMoveFits(wake, s, after, id);
    }
  }

  lemma StartWriteFits(wake: W.State, s: T.State, id: nat)
    requires wake.awaited == W.STARTS && Fits(wake, s)
    ensures Fits(W.Run(wake, StartSteps(s, T.StartWrite(id))), T.StartWriteStep(s, id))
  {
    var after := T.StartWriteStep(s, id);
    if after.row != s.row {
      PersistFits(wake, s, after, id, s.handlers[id].meterWh);
    } else if after != s {
      assert id in s.handlers && s.handlers[id].StartWriting? && after.handlers[id].Answered?;
      QuietMoveFits(wake, s, after, id);
    }
  }

  lemma StopWriteWithdrawsStart(wake: W.State, s: T.State, id: nat)
    requires wake.awaited == W.STARTS && Fits(wake, s)
    ensures Fits(W.Run(wake, StartSteps(s, T.StopWrite(id))), T.StopWriteStep(s, id))
  {
    var after := T.StopWriteStep(s, id);
    if after != s {
      OwedMoves(W.STARTS, s.handlers, id, after.handlers[id]);
      if after.row != s.row {
        WithdrawFits(wake, s, after);
      } else {
        QuietMoveFits(wake, s, after, id);
      }
    }
  }

  lemma StartNotifyFits(wake: W.State, s: T.State, id: nat)
    requires wake.awaited == W.STARTS && Fits(wake, s)
    ensures Fits(W.Run(wake, StartSteps(s, T.StartNotify(id))), T.StartNotifyStep(s, id))
  {
    if id in s.handlers && s.handlers[id].StartNotifying? {
      NotifyFits(wake, s, T.StartNotifyStep(s, id), id, T.StartNotice(s.handlers[id].meterWh));
    }
  }

  // ---------------------------------------------------------------- stops

  lemma StopWriteFits(wake: W.State, s: T.State, id: nat)
    requires wake.awaited == W.STOPS && Fits(wake, s)
    ensures Fits(W.Run(wake, StopSteps(s, T.StopWrite(id))), T.StopWriteStep(s, id))
  {
    var after := T.StopWriteStep(s, id);
    if after != s {
      var meterWh := s.handlers[id].meterWh;
      if after.handlers[id].StopPublishing? {
        PersistFits(wake, s, after, id, meterWh);
      } else if after.handlers[id].StopNotifying? {
        RunOne(wake, W.Announce(id, meterWh));
        OwedMoves(W.STOPS, s.handlers, id, after.handlers[id]);
      } else {
        QuietMoveFits(wake, s, after, id);
      }
    }
  }

  lemma StopPublishFits(wake: W.State, s: T.State, id: nat, ok: bool)
    requires wake.awaited == W.STOPS && Fits(wake, s)
    ensures Fits(W.Run(wake, StopSteps(s, T.StopPublish(id, ok))), T.StopPublishStep(s, id, ok))
  {
    if id in s.handlers && s.handlers[id].StopPublishing? {
      RunOne(wake, if ok then W.Published(id) else W.Drop(id));
      OwedMoves(W.STOPS, s.handlers, id, T.StopPublishStep(s, id, ok).handlers[id]);
      assert id in wake.owed && wake.owed[id] == W.Notice(s.handlers[id].meterWh, true);
    }
  }

  lemma StopNotifyFits(wake: W.State, s: T.State, id: nat)
    requires wake.awaited == W.STOPS && Fits(wake, s)
    ensures Fits(W.Run(wake, StopSteps(s, T.StopNotify(id))), T.StopNotifyStep(s, id))
  {
    if id in s.handlers && s.handlers[id].StopNotifying? {
      NotifyFits(wake, s, T.StopNotifyStep(s, id), id, T.StopNotice(s.handlers[id].meterWh));
    }
  }

  // ---------------------------------------------------------------- the rest

  lemma RemoteFits(wake: W.State, s: T.State, e: T.Event)
    requires Fits(wake, s) && (e.RemoteStart? || e.RemoteStop? || e.MarkFailed?)
    ensures Fits(W.Run(wake, Steps(wake.awaited, s, e)), T.RemoteStep(s, e))
  {
    if !e.MarkFailed? {
      WithdrawFits(wake, s, T.RemoteStep(s, e));
    }
  }

  /** The steps of meter frames, and those of the other kind of frame, concern nobody who waits. */
  predicate Quiet(awaited: W.Awaited, e: T.Event) {
    || e.MeterFrame? || e.MeterWrite? || e.Reread? || e.Publish? || e.StopFrame?
    || (awaited == W.STARTS && (e.StopPublish? || e.StopNotify?))
    || (awaited == W.STOPS && (e.StartFrame? || e.StartWrite? || e.StartNotify?))
  }

  predicate IsMove(awaited: W.Awaited, s: T.State, after: T.State, id: nat) {
    && id in after.handlers && after.handlers == s.handlers[id := after.handlers[id]]
    && !Notifies(awaited, after.handlers[id])
    && (id in s.handlers ==> !Notifies(awaited, s.handlers[id]))
    && Stored(awaited, after.row) == Stored(awaited, s.row)
    && SameCalls(awaited, s.notices, after.notices)
  }

  /** No call, or one of the other kind. */
  predicate SameCalls(awaited: W.Awaited, before: seq<T.Notice>, after: seq<T.Notice>) {
    || after == before
    || (|after| == |before| + 1 && after == before + [after[|before|]] && (after[|before|].StartNotice? <==> awaited == W.STOPS))
  }

  lemma SameCallsCount(awaited: W.Awaited, before: seq<T.Notice>, after: seq<T.Notice>)
    requires SameCalls(awaited, before, after)
    ensures Calls(awaited, after) == Calls(awaited, before)
  {
    if after != before {
      OneMoreCall(awaited, before, after[|before|]);
    }
  }

  lemma MeterStepIsAMove(awaited: W.Awaited, s: T.State, e: T.Event)
    requires e.MeterFrame? || e.MeterWrite? || e.Reread? || e.Publish?
    ensures T.Next(s, e) == s || IsMove(awaited, s, T.Next(s, e), e.id)
  {
  }

  lemma StopFrameIsAMove(awaited: W.Awaited, s: T.State, e: T.Event)
    requires e.StopFrame?
    ensures T.Next(s, e) == s || IsMove(awaited, s, T.Next(s, e), e.id)
  {
  }

  lemma OtherKindIsAMove(awaited: W.Awaited, s: T.State, e: T.Event)
    requires if awaited == W.STARTS then e.StopPublish? || e.StopNotify? else e.StartFrame? || e.StartWrite? || e.StartNotify?
    ensures T.Next(s, e) == s || IsMove(awaited, s, T.Next(s, e), e.id)
  {
  }

  lemma QuietStepIsAMove(awaited: W.Awaited, s: T.State, e: T.Event)
    requires Quiet(awaited, e)
    ensures T.Next(s, e) == s || IsMove(awaited, s, T.Next(s, e), e.id)
  {
    match e
    case MeterFrame(_, _) => MeterStepIsAMove(awaited, s, e);
    case MeterWrite(_) => MeterStepIsAMove(awaited, s, e);
    case Reread(_) => MeterStepIsAMove(awaited, s, e);
    case Publish(_, _) => MeterStepIsAMove(awaited, s, e);
    case StopFrame(_, _) => StopFrameIsAMove(awaited, s, e);
    case _ => OtherKindIsAMove(awaited, s, e);
  }

  lemma QuietFits(wake: W.State, s: T.State, e: T.Event)
    requires Fits(wake, s) && Quiet(wake.awaited, e)
    ensures Fits(W.Run(wake, Steps(wake.awaited, s, e)), T.Next(s, e))
  {
    hide Fits, T.Next, Stored, Calls;
    QuietStepIsAMove(wake.awaited, s, e);
    if T.Next(s, e) != s {
      SameCallsCount(wake.awaited, s.notices, T.Next(s, e).notices);
      QuietMoveFits(wake, s, T.Next(s, e), e.id);
    }
  }

  lemma StepFits(wake: W.State, s: T.State, e: T.Event)
    requires Fits(wake, s)
    ensures Fits(W.Run(wake, Steps(wake.awaited, s, e)), T.Next(s, e))
  {
    hide Fits;
    if Quiet(wake.awaited, e) {
      QuietFits(wake, s, e);
    } else {
      match e
      case StartFrame(id, meterWh) => StartFrameFits(wake, s, id, meterWh);
      case StartWrite(id) => StartWriteFits(wake, s, id);
      case StartNotify(id) => StartNotifyFits(wake, s, id);
      case StopWrite(id) => if wake.awaited == W.STARTS { StopWriteWithdrawsStart(wake, s, id); } else { StopWriteFits(wake, s, id); }
      case StopPublish(id, ok) => StopPublishFits(wake, s, id, ok);
      case StopNotify(id) => StopNotifyFits(wake, s, id);
      case _ => RemoteFits(wake, s, e);
    }
  }

  // ---------------------------------------------------------------- a stop that was not announced

  /** The stop is stored and no StopTransaction is on its way. */
  ghost predicate Silent(s: T.State) {
    && s.row.Some? && s.row.value.status == T.COMPLETED
    && forall id :: id in s.handlers ==> !s.handlers[id].StopWriting? && !Notifies(W.STOPS, s.handlers[id])
  }

  lemma SilentStep(s: T.State, e: T.Event)
    requires Silent(s) && !e.RemoteStart? && !e.RemoteStop?
    ensures Silent(T.Next(s, e)) && Calls(W.STOPS, T.Next(s, e).notices) == Calls(W.STOPS, s.notices)
  {
    hide Calls;
    StaysCompleted(s, e);
    if Quiet(W.STOPS, e) {
      hide T.Next;
      QuietStepIsAMove(W.STOPS, s, e);
      SameCallsCount(W.STOPS, s.notices, T.Next(s, e).notices);
    }
  }

  lemma StaysCompleted(s: T.State, e: T.Event)
    requires Silent(s) && !e.RemoteStart? && !e.RemoteStop?
    ensures T.Next(s, e).row.Some? && T.Next(s, e).row.value.status == T.COMPLETED
    ensures e.StopWrite? || e.StopPublish? || e.StopNotify? || e.MarkFailed? ==> T.Next(s, e) == s
    ensures Quiet(W.STOPS, e) && e.id in T.Next(s, e).handlers ==> !T.Next(s, e).handlers[e.id].StopWriting?
  {
  }

  /**
    A stop whose publication failed is never announced afterwards: until a remote command reopens the
    row, no frame, and no repeated StopTransaction either, calls `resolveStop` again.
   */
  lemma {:induction false} LostStopsAreNeverAnnounced(s: T.State, events: seq<T.Event>)
    requires Silent(s) && (forall i :: 0 <= i < |events| ==> !events[i].RemoteStart? && !events[i].RemoteStop?)
    ensures Silent(T.Run(s, events)) && Calls(W.STOPS, T.Run(s, events).notices) == Calls(W.STOPS, s.notices)
  {
    if events != [] {
      var front := events[..|events| - 1];
      LostStopsAreNeverAnnounced(s, front);
      SilentStep(T.Run(s, front), events[|events| - 1]);
    }
  }

  // ---------------------------------------------------------------- whole runs

  /** A step of the transaction, or one of a waiter. */
  datatype Step = Frame(frame: T.Event) | Waiting(waiter: W.Event)

  predicate OfWaiter(e: W.Event) {
    e.Wait? || e.Check? || e.CheckFails? || e.Continue? || e.RecheckRead? || e.RecheckFails? || e.RecheckContinue? || e.Timeout?
  }

  function Transaction(steps: seq<Step>): T.State {
    if steps == [] then T.EMPTY
    else
      var before, step := Transaction(steps[..|steps| - 1]), steps[|steps| - 1];
      if step.Frame? then T.Next(before, step.frame) else before
  }

  function WakeSteps(awaited: W.Awaited, steps: seq<Step>): seq<W.Event> {
    if steps == [] then []
    else
      var front, step := steps[..|steps| - 1], steps[|steps| - 1];
      WakeSteps(awaited, front)
      + match step
        case Frame(e) => Steps(awaited, Transaction(front), e)
        case Waiting(e) => if OfWaiter(e) then [e] else []
  }

  lemma {:induction false} RunConcat(s: W.State, a: seq<W.Event>, b: seq<W.Event>)
    ensures W.Run(s, a + b) == W.Run(W.Run(s, a), b)
    decreases |b|
  {
    if b == [] {
      assert a + b == a;
    } else {
      RunConcat(s, a, b[..|b| - 1]);
      assert (a + b)[..|a + b| - 1] == a + b[..|b| - 1];
    }
  }

  lemma WaiterLeavesTheRow(wake: W.State, e: W.Event)
    requires OfWaiter(e)
    ensures
      var after := W.Next(wake, e);
      after.awaited == wake.awaited && after.stored == wake.stored && after.owed == wake.owed && after.told == wake.told
  {
  }

  /**
    Any run of frames, remote commands and waiters is a run of the wake-up protocol, in which the checks
    read the transaction row itself and the notifications are exactly the ones the handlers make. So what
    is proved of every run of that protocol holds of the waiters of a real transaction.
   */
  lemma {:induction false} HandlersRunTheProtocol(awaited: W.Awaited, steps: seq<Step>)
    ensures W.Run(W.Start(awaited), WakeSteps(awaited, steps)).awaited == awaited
    ensures Fits(W.Run(W.Start(awaited), WakeSteps(awaited, steps)), Transaction(steps))
  {
    W.RunKeepsInv(awaited, WakeSteps(awaited, steps));
    if steps != [] {
      var front, step := steps[..|steps| - 1], steps[|steps| - 1];
      HandlersRunTheProtocol(awaited, front);
      var tx, wake := Transaction(front), W.Run(W.Start(awaited), WakeSteps(awaited, front));
      match step {
        case Frame(e) =>
          RunConcat(W.Start(awaited), WakeSteps(awaited, front), Steps(awaited, tx, e));
          StepFits(wake, tx, e);
        case Waiting(e) =>
          RunConcat(W.Start(awaited), WakeSteps(awaited, front), if OfWaiter(e) then [e] else []);
          if OfWaiter(e) {
            RunOne(wake, e);
            WaiterLeavesTheRow(wake, e);
          }
      }
    }
  }
}
