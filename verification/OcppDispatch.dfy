/**
  Answering the CALLs of charge points at most once (`processIncomingCall` and `executeIncomingCall` in
  apps/backend/src/ocpp/ocpp16-central-system.service.ts): a map of calls in flight in front of a log of
  stored responses. Message ids follow section 4.1.4 of OCPP-J 1.6.

  One process life is modelled. A query or a write may fail; every await is a place where any other step
  may run. Frames are any values.
 */
module OcppDispatch {
  import opened Common

  /** One CALL as the log knows it: the charge point and the message's unique id. */
  datatype CallId = CallId(chargePoint: string, uniqueId: string)

  type Frame = nat

  /** The in-flight key. */
  function Key(id: CallId): string {
    id.chargePoint + ":" + id.uniqueId
  }

  datatype Phase =
    | Looking                          // before the log is read
    | Looked(cached: Option<Frame>)    // the log was read
    | Running                          // the handler runs
    | Storing(frame: Frame)            // the handler answered, the response is not stored yet
    | Clashed(frame: Frame)            // the insert met the unique index
    | Finishing(reply: Option<Frame>)  // settled, `finally` has not run; None when a query threw
    | Settled(reply: Option<Frame>)

  datatype Execution = Execution(id: CallId, phase: Phase)

  datatype State = State(
    log: map<CallId, Frame>, inFlight: map<string, nat>, executions: map<nat, Execution>,
    calls: map<nat, nat>, dispatches: multiset<CallId>, failedStores: multiset<CallId>)

  datatype Event =
    | Arrive(call: nat, execution: nat, id: CallId)
    | Lookup(execution: nat, ok: bool)
    | Dispatch(execution: nat)
    | Respond(execution: nat, frame: Frame)
    | Store(execution: nat, ok: bool)
    | ReadDuplicate(execution: nat, ok: bool)
    | Finish(execution: nat)

  const EMPTY := State(map[], map[], map[], map[], multiset{}, multiset{})

  function To(s: State, x: nat, phase: Phase): State
    requires x in s.executions
  {
    s.(executions := s.executions[x := s.executions[x].(phase := phase)])
  }

  function ArriveStep(s: State, call: nat, x: nat, id: CallId): State {
    if call in s.calls || x in s.executions then s
    else if Key(id) in s.inFlight then s.(calls := s.calls[call := s.inFlight[Key(id)]])
    else s.(executions := s.executions[x := Execution(id, Looking)],
            inFlight := s.inFlight[Key(id) := x],
            calls := s.calls[call := x])
  }

  function LookupStep(s: State, x: nat, ok: bool): State {
    if x in s.executions && s.executions[x].phase.Looking? then
      var id := s.executions[x].id;
      To(s, x, if !ok then Finishing(None) else Looked(if id in s.log then Some(s.log[id]) else None))
    else s
  }

  function DispatchStep(s: State, x: nat): State {
    if x in s.executions && s.executions[x].phase.Looked? then
      if s.executions[x].phase.cached.Some? then To(s, x, Finishing(s.executions[x].phase.cached))
      else To(s, x, Running).(dispatches := s.dispatches + multiset{s.executions[x].id})
    else s
  }

  function RespondStep(s: State, x: nat, frame: Frame): State {
    if x in s.executions && s.executions[x].phase.Running? then To(s, x, Storing(frame)) else s
  }

  function StoreStep(s: State, x: nat, ok: bool): State {
    if x in s.executions && s.executions[x].phase.Storing? then
      var id, frame := s.executions[x].id, s.executions[x].phase.frame;
      if !ok then To(s, x, Finishing(None)).(failedStores := s.failedStores + multiset{id})
      else if id in s.log then To(s, x, Clashed(frame))
      else To(s, x, Finishing(Some(frame))).(log := s.log[id := frame])
    else s
  }

  function ReadDuplicateStep(s: State, x: nat, ok: bool): State {
    if x in s.executions && s.executions[x].phase.Clashed? then
      var id, frame := s.executions[x].id, s.executions[x].phase.frame;
      To(s, x, Finishing(if !ok then None else Some(if id in s.log then s.log[id] else frame)))
    else s
  }

  /** The `finally` block, after which the promise of every joined caller settles. */
  function FinishStep(s: State, x: nat): State {
    if x in s.executions && s.executions[x].phase.Finishing? then
      To(s, x, Settled(s.executions[x].phase.reply)).(inFlight := s.inFlight - {Key(s.executions[x].id)})
    else s
  }

  function Next(s: State, e: Event): State {
    match e
    case Arrive(call, x, id) => ArriveStep(s, call, x, id)
    case Lookup(x, ok) => LookupStep(s, x, ok)
    case Dispatch(x) => DispatchStep(s, x)
    case Respond(x, frame) => RespondStep(s, x, frame)
    case Store(x, ok) => StoreStep(s, x, ok)
    case ReadDuplicate(x, ok) => ReadDuplicateStep(s, x, ok)
    case Finish(x) => FinishStep(s, x)
  }

  function Run(s: State, events: seq<Event>): State {
    if events == [] then s else Next(Run(s, events[..|events| - 1]), events[|events| - 1])
  }

  // ---------------------------------------------------------------- keys

  /** Charge point ids are UUIDs. */
  predicate ColonFree(text: string) {
    ':' !in text
  }

  lemma NoColonBefore(id: CallId)
    requires ColonFree(id.chargePoint)
    ensures forall n :: 0 <= n < |id.chargePoint| ==> Key(id)[n] != ':'
  {
  }

  /** The joined key tells calls apart as long as charge point ids hold no colon. */
  lemma KeyIsInjective(a: CallId, b: CallId)
    requires ColonFree(a.chargePoint) && ColonFree(b.chargePoint) && Key(a) == Key(b)
    ensures a == b
  {
    var n, m := |a.chargePoint|, |b.chargePoint|;
    assert Key(a)[n] == ':' && Key(b)[m] == ':';
    NoColonBefore(a);
    NoColonBefore(b);
    assert n == m;
    assert Key(a)[..n] == a.chargePoint && Key(b)[..m] == b.chargePoint;
    assert Key(a)[n + 1..] == a.uniqueId && Key(b)[m + 1..] == b.uniqueId;
  }

  // ---------------------------------------------------------------- the invariant

  /** What an execution's phase says about the log. */
  predicate PhaseFits(x: Execution, log: map<CallId, Frame>) {
    match x.phase
    case Looking => true
    case Looked(cached) => cached == (if x.id in log then Some(log[x.id]) else None)
    case Running => x.id !in log
    case Storing(_) => x.id !in log
    case Clashed(_) => false
    case Finishing(reply) => reply.Some? ==> x.id in log && log[x.id] == reply.value
    case Settled(reply) => reply.Some? ==> x.id in log && log[x.id] == reply.value
  }

  ghost predicate InFlightIsExact(s: State) {
    && (forall key :: key in s.inFlight ==>
          && s.inFlight[key] in s.executions
          && Key(s.executions[s.inFlight[key]].id) == key
          && !s.executions[s.inFlight[key]].phase.Settled?)
    && (forall x :: x in s.executions && !s.executions[x].phase.Settled? ==>
          Key(s.executions[x].id) in s.inFlight && s.inFlight[Key(s.executions[x].id)] == x)
  }

  ghost predicate PhasesFit(s: State) {
    forall x :: x in s.executions ==> ColonFree(s.executions[x].id.chargePoint) && PhaseFits(s.executions[x], s.log)
  }

  /** A handler for this call has started and its response has been neither stored nor lost. */
  predicate Busy(s: State, id: CallId) {
    && Key(id) in s.inFlight
    && var x := s.inFlight[Key(id)];
    && x in s.executions && s.executions[x].id == id
    && (s.executions[x].phase.Running? || s.executions[x].phase.Storing?)
  }

  /** Every run of a handler is stored, lost to a failed write, or still going on. */
  ghost predicate Accounted(s: State, id: CallId) {
    s.dispatches[id] == s.failedStores[id] + (if id in s.log then 1 else 0) + (if Busy(s, id) then 1 else 0)
  }

  ghost predicate AllAccounted(s: State) {
    forall id :: Accounted(s, id)
  }

  ghost predicate Inv(s: State) {
    InFlightIsExact(s) && PhasesFit(s) && AllAccounted(s)
  }

  lemma SameCall(s: State, x: nat, y: nat)
    requires InFlightIsExact(s) && PhasesFit(s) && x in s.executions && y in s.executions
    requires !s.executions[x].phase.Settled? && !s.executions[y].phase.Settled?
    requires s.executions[x].id == s.executions[y].id
    ensures x == y
  {
  }

  /** A call that is not in flight opens an execution. */
  predicate Opens(s: State, call: nat, x: nat, id: CallId) {
    call !in s.calls && x !in s.executions && Key(id) !in s.inFlight
  }

  lemma OpeningIsAccounted(s: State, call: nat, x: nat, id: CallId)
    requires InFlightIsExact(s) && AllAccounted(s) && Opens(s, call, x, id)
    ensures AllAccounted(ArriveStep(s, call, x, id))
  {
    var next := ArriveStep(s, call, x, id);
    forall other ensures Accounted(next, other) {
      assert Accounted(s, other);
      assert Busy(next, other) == Busy(s, other);
    }
  }

  lemma OpeningIsInFlight(s: State, call: nat, x: nat, id: CallId)
    requires InFlightIsExact(s) && Opens(s, call, x, id)
    ensures InFlightIsExact(ArriveStep(s, call, x, id))
  {
  }

  lemma JoiningIsAccounted(s: State, next: State)
    requires AllAccounted(s) && next == s.(calls := next.calls)
    ensures AllAccounted(next)
  {
    forall other ensures Accounted(next, other) {
      assert Accounted(s, other);
    }
  }

  lemma ArriveKeeps(s: State, call: nat, x: nat, id: CallId)
    requires Inv(s) && ColonFree(id.chargePoint)
    ensures Inv(ArriveStep(s, call, x, id))
  {
    if Opens(s, call, x, id) {
      OpeningIsAccounted(s, call, x, id);
      OpeningIsInFlight(s, call, x, id);
    } else {
      JoiningIsAccounted(s, ArriveStep(s, call, x, id));
    }
  }

  /** A step that moves one open execution between open phases, without touching log or in-flight map. */
  lemma MoveKeeps(s: State, next: State, x: nat, phase: Phase)
    requires Inv(s) && x in s.executions && !s.executions[x].phase.Settled? && !phase.Settled?
    requires next.log == s.log && next.inFlight == s.inFlight && next.executions == To(s, x, phase).executions
    requires PhaseFits(Execution(s.executions[x].id, phase), s.log)
    requires forall other :: other != s.executions[x].id ==>
      next.dispatches[other] == s.dispatches[other] && next.failedStores[other] == s.failedStores[other]
    requires
      var id, before := s.executions[x].id, s.executions[x].phase;
      next.dispatches[id] + s.failedStores[id] + (if before.Running? || before.Storing? then 1 else 0)
      == s.dispatches[id] + next.failedStores[id] + (if phase.Running? || phase.Storing? then 1 else 0)
    ensures Inv(next)
  {
    var id := s.executions[x].id;
    forall other ensures Accounted(next, other) {
      assert Accounted(s, other);
      if other != id {
        assert Busy(next, other) == Busy(s, other);
      }
    }
  }

  lemma StoredKeeps(s: State, x: nat)
    requires Inv(s) && x in s.executions && s.executions[x].phase.Storing?
    ensures Inv(StoreStep(s, x, true))
  {
    var id, frame := s.executions[x].id, s.executions[x].phase.frame;
    var next := StoreStep(s, x, true);
    assert PhaseFits(s.executions[x], s.log);
    forall y | y in next.executions ensures PhaseFits(next.executions[y], next.log) {
      assert PhaseFits(s.executions[y], s.log);
      if y != x && s.executions[y].id == id && !s.executions[y].phase.Settled? {
        SameCall(s, x, y);
      }
    }
    forall other ensures Accounted(next, other) {
      assert Accounted(s, other);
      if other != id {
        assert Busy(next, other) == Busy(s, other);
      }
    }
  }

  lemma FinishKeeps(s: State, x: nat)
    requires Inv(s) && x in s.executions && s.executions[x].phase.Finishing?
    ensures Inv(FinishStep(s, x))
  {
    var id := s.executions[x].id;
    var next := FinishStep(s, x);
    assert PhaseFits(s.executions[x], s.log);
    forall y | y in next.executions && !next.executions[y].phase.Settled?
      ensures Key(next.executions[y].id) in next.inFlight && next.inFlight[Key(next.executions[y].id)] == y
    {
      assert s.inFlight[Key(s.executions[y].id)] == y;
    }
    forall other ensures Accounted(next, other) {
      assert Accounted(s, other);
      assert Busy(next, other) == Busy(s, other);
    }
  }

  lemma LookupKeeps(s: State, x: nat, ok: bool)
    requires Inv(s)
    ensures Inv(LookupStep(s, x, ok))
  {
    if x in s.executions && s.executions[x].phase.Looking? {
      MoveKeeps(s, LookupStep(s, x, ok), x, LookupStep(s, x, ok).executions[x].phase);
    }
  }

  lemma DispatchKeeps(s: State, x: nat)
    requires Inv(s)
    ensures Inv(DispatchStep(s, x))
  {
    if x in s.executions && s.executions[x].phase.Looked? {
      assert PhaseFits(s.executions[x], s.log);
      MoveKeeps(s, DispatchStep(s, x), x, DispatchStep(s, x).executions[x].phase);
    }
  }

  lemma RespondKeeps(s: State, x: nat, frame: Frame)
    requires Inv(s)
    ensures Inv(RespondStep(s, x, frame))
  {
    if x in s.executions && s.executions[x].phase.Running? {
      assert PhaseFits(s.executions[x], s.log);
      MoveKeeps(s, RespondStep(s, x, frame), x, Storing(frame));
    }
  }

  lemma NextKeepsInv(s: State, e: Event)
    requires Inv(s) && (e.Arrive? ==> ColonFree(e.id.chargePoint))
    ensures Inv(Next(s, e))
  {
    match e
    case Arrive(call, x, id) => ArriveKeeps(s, call, x, id);
    case Lookup(x, ok) => LookupKeeps(s, x, ok);
    case Dispatch(x) => DispatchKeeps(s, x);
    case Respond(x, frame) => RespondKeeps(s, x, frame);
    case Store(x, ok) =>
      if x in s.executions && s.executions[x].phase.Storing? {
        if ok { StoredKeeps(s, x); } else { MoveKeeps(s, StoreStep(s, x, false), x, Finishing(None)); }
      }
    case ReadDuplicate(x, ok) =>
      if x in s.executions { assert PhaseFits(s.executions[x], s.log); }
    case Finish(x) =>
      if x in s.executions && s.executions[x].phase.Finishing? { FinishKeeps(s, x); }
  }

  /** Every call comes from a charge point whose id holds no colon. */
  predicate FromChargePoints(events: seq<Event>) {
    forall i :: 0 <= i < |events| && events[i].Arrive? ==> ColonFree(events[i].id.chargePoint)
  }

  /**
    Over every run, with any concurrent and later repeats and any failing queries: a call's handler ran
    exactly once for its stored response, once for every response lost to a failed write, and at most
    once more that is still going on. The unique index is never hit.
   */
  lemma {:induction false} EveryDispatchIsAccountedFor(events: seq<Event>)
    requires FromChargePoints(events)
    ensures Inv(Run(EMPTY, events))
  {
    if events != [] {
      EveryDispatchIsAccountedFor(events[..|events| - 1]);
      assert events[|events| - 1].Arrive? ==> ColonFree(events[|events| - 1].id.chargePoint);
      NextKeepsInv(Run(EMPTY, events[..|events| - 1]), events[|events| - 1]);
    }
  }

  lemma BusyIsNotStored(s: State, id: CallId)
    requires Inv(s)
    ensures Busy(s, id) ==> id !in s.log
  {
  }

  predicate NoStoreFails(events: seq<Event>) {
    forall i :: 0 <= i < |events| && events[i].Store? ==> events[i].ok
  }

  lemma {:induction false} NoFailedStores(events: seq<Event>)
    requires NoStoreFails(events)
    ensures Run(EMPTY, events).failedStores == multiset{}
  {
    if events != [] {
      NoFailedStores(events[..|events| - 1]);
      assert events[|events| - 1].Store? ==> events[|events| - 1].ok;
    }
  }

  /** At most once: without a failing write no handler runs twice for one call, however often it arrives. */
  lemma HandlersRunAtMostOnce(events: seq<Event>, id: CallId)
    requires FromChargePoints(events) && NoStoreFails(events)
    ensures Run(EMPTY, events).dispatches[id] <= 1
    ensures id in Run(EMPTY, events).log ==> Run(EMPTY, events).dispatches[id] == 1
  {
    EveryDispatchIsAccountedFor(events);
    NoFailedStores(events);
    assert Accounted(Run(EMPTY, events), id);
    BusyIsNotStored(Run(EMPTY, events), id);
  }

  // ---------------------------------------------------------------- one map from call to response

  /** The simple machine: a call is answered from the map, and the first answer of a call is kept. */
  predicate Answers(table: map<CallId, Frame>, id: CallId, frame: Frame, after: map<CallId, Frame>) {
    if id in table then after == table && frame == table[id] else after == table[id := frame]
  }

  /** What one caller has been told: nothing yet, nothing ever (a query failed), or a frame. */
  function Reply(s: State, call: nat): Option<Frame> {
    if call in s.calls && s.calls[call] in s.executions && s.executions[s.calls[call]].phase.Settled?
      then s.executions[s.calls[call]].phase.reply else None
  }

  /** Every step is a step of the simple machine for some call, or invisible to it. */
  lemma StepRefinesTheMap(s: State, e: Event)
    requires Inv(s)
    ensures Next(s, e).log == s.log ||
      (e.Store? && e.execution in s.executions && s.executions[e.execution].phase.Storing? &&
       s.executions[e.execution].id !in s.log &&
       Answers(s.log, s.executions[e.execution].id, s.executions[e.execution].phase.frame, Next(s, e).log))
  {
    if !e.Store? {
      OnlyStoringLogs(s, e);
      hide Next;
    } else if e.execution in s.executions {
      assert PhaseFits(s.executions[e.execution], s.log);
    }
    hide Inv;
  }

  lemma OnlyStoringLogs(s: State, e: Event)
    requires !e.Store?
    ensures Next(s, e).log == s.log
  {
  }

  ghost predicate Extends(table: map<CallId, Frame>, after: map<CallId, Frame>) {
    forall id :: id in table ==> id in after && after[id] == table[id]
  }

  lemma StepKeepsResponses(s: State, e: Event)
    ensures Extends(s.log, Next(s, e).log)
  {
  }

  lemma {:induction false} ResponsesAreKept(s: State, events: seq<Event>)
    ensures Extends(s.log, Run(s, events).log)
  {
    if events != [] {
      ResponsesAreKept(s, events[..|events| - 1]);
      StepKeepsResponses(Run(s, events[..|events| - 1]), events[|events| - 1]);
    }
  }

  ghost predicate CallsJoin(s: State, owner: map<nat, CallId>) {
    forall call :: call in s.calls ==>
      call in owner && s.calls[call] in s.executions && s.executions[s.calls[call]].id == owner[call]
  }

  /** Which CALL each caller sent. */
  function Owners(events: seq<Event>): map<nat, CallId> {
    if events == [] then map[]
    else
      var before, e := Owners(events[..|events| - 1]), events[|events| - 1];
      if e.Arrive? && e.call !in before then before[e.call := e.id] else before
  }

  /** Callers and executions are numbered as they come. */
  predicate FreshNumbers(events: seq<Event>) {
    events != [] ==>
      var front, e := events[..|events| - 1], events[|events| - 1];
      && FreshNumbers(front)
      && (e.Arrive? ==> e.call !in Run(EMPTY, front).calls && e.execution !in Run(EMPTY, front).executions
                        && e.call !in Owners(front))
  }

  lemma ArrivalJoinsItsCall(s: State, owner: map<nat, CallId>, call: nat, x: nat, id: CallId)
    requires Inv(s) && CallsJoin(s, owner) && ColonFree(id.chargePoint)
    requires call !in s.calls && x !in s.executions && call !in owner
    ensures CallsJoin(ArriveStep(s, call, x, id), owner[call := id])
  {
    if Key(id) in s.inFlight {
      KeyIsInjective(id, s.executions[s.inFlight[Key(id)]].id);
    }
  }

  ghost predicate SameCalls(s: State, next: State) {
    && next.calls == s.calls
    && (forall x :: x in s.executions ==> x in next.executions && next.executions[x].id == s.executions[x].id)
  }

  lemma StoringKeepsCalls(s: State, x: nat, ok: bool)
    ensures SameCalls(s, StoreStep(s, x, ok))
  {
  }

  lemma LookingKeepsCalls(s: State, x: nat, ok: bool)
    ensures SameCalls(s, LookupStep(s, x, ok))
  {
  }

  lemma DispatchKeepsCalls(s: State, x: nat)
    ensures SameCalls(s, DispatchStep(s, x))
  {
  }

  lemma OnlyArrivalsAdd(s: State, e: Event)
    requires !e.Arrive?
    ensures SameCalls(s, Next(s, e))
  {
    match e
    case Lookup(x, ok) => LookingKeepsCalls(s, x, ok);
    case Dispatch(x) => DispatchKeepsCalls(s, x);
    case Respond(x, frame) => assert SameCalls(s, RespondStep(s, x, frame));
    case Store(x, ok) => StoringKeepsCalls(s, x, ok);
    case ReadDuplicate(x, ok) => assert SameCalls(s, ReadDuplicateStep(s, x, ok));
    case Finish(x) => assert SameCalls(s, FinishStep(s, x));
  }

  lemma OthersStayJoined(s: State, next: State, owner: map<nat, CallId>)
    requires CallsJoin(s, owner) && SameCalls(s, next)
    ensures CallsJoin(next, owner)
  {
  }

  lemma {:induction false} CallersJoinTheirCall(events: seq<Event>)
    requires FromChargePoints(events) && FreshNumbers(events)
    ensures CallsJoin(Run(EMPTY, events), Owners(events))
  {
    if events != [] {
      var front, e := events[..|events| - 1], events[|events| - 1];
      CallersJoinTheirCall(front);
      EveryDispatchIsAccountedFor(front);
      assert e == events[|events| - 1];
      if e.Arrive? {
        ArrivalJoinsItsCall(Run(EMPTY, front), Owners(front), e.call, e.execution, e.id);
      } else {
        OnlyArrivalsAdd(Run(EMPTY, front), e);
        OthersStayJoined(Run(EMPTY, front), Next(Run(EMPTY, front), e), Owners(front));
      }
    }
  }

  /**
    Every caller of one call that is answered gets the identical stored frame: concurrent repeats,
    later repeats, and repeats in any later continuation of the run.
   */
  lemma RepeatsGetTheStoredFrame(events: seq<Event>, later: seq<Event>, first: nat, second: nat)
    requires FromChargePoints(events + later) && FreshNumbers(events) && FreshNumbers(events + later)
    requires first in Owners(events) && second in Owners(events + later)
    requires Owners(events)[first] == Owners(events + later)[second]
    requires Reply(Run(EMPTY, events), first).Some? && Reply(Run(EMPTY, events + later), second).Some?
    ensures Reply(Run(EMPTY, events), first) == Reply(Run(EMPTY, events + later), second)
  {
    var id := Owners(events)[first];
    assert FromChargePoints(events) by {
      assert forall i :: 0 <= i < |events| ==> events[i] == (events + later)[i];
    }
    FrameIsStored(events, first);
    FrameIsStored(events + later, second);
    RunConcat(EMPTY, events, later);
    ResponsesAreKept(Run(EMPTY, events), later);
  }

  lemma FrameIsStored(events: seq<Event>, call: nat)
    requires FromChargePoints(events) && FreshNumbers(events) && call in Owners(events)
    requires Reply(Run(EMPTY, events), call).Some?
    ensures Owners(events)[call] in Run(EMPTY, events).log
    ensures Some(Run(EMPTY, events).log[Owners(events)[call]]) == Reply(Run(EMPTY, events), call)
  {
    CallersJoinTheirCall(events);
    EveryDispatchIsAccountedFor(events);
    var s := Run(EMPTY, events);
    assert PhaseFits(s.executions[s.calls[call]], s.log);
  }

  lemma {:induction false} RunConcat(s: State, events: seq<Event>, later: seq<Event>)
    ensures Run(s, events + later) == Run(Run(s, events), later)
    decreases |later|
  {
    if later == [] {
      assert events + later == events;
    } else {
      var n := |later| - 1;
      RunConcat(s, events, later[..n]);
      assert (events + later)[..|events + later| - 1] == events + later[..n];
    }
  }

  // ---------------------------------------------------------------- a failed write runs the handler again

  /** A call whose response could not be stored is handled again when it is repeated. */
  lemma FailedStoreHandlesAgain(s: State, x: nat, id: CallId, call: nat, again: nat)
    requires Inv(s) && x in s.executions && s.executions[x].phase.Storing? && s.executions[x].id == id
    requires call !in s.calls && again !in s.executions
    ensures
      var lost := FinishStep(StoreStep(s, x, false), x);
      var after := DispatchStep(LookupStep(ArriveStep(lost, call, again, id), again, true), again);
      && again in after.executions && after.executions[again] == Execution(id, Running)
      && after.dispatches[id] == s.dispatches[id] + 1
  {
  }

  lemma RunAppend(s: State, events: seq<Event>, e: Event)
    ensures Run(s, events + [e]) == Next(Run(s, events), e)
  {
    assert (events + [e])[..|events|] == events;
  }

  lemma RunThree(s: State, events: seq<Event>, a: Event, b: Event, c: Event)
    ensures Run(s, events + [a, b, c]) == Next(Next(Next(Run(s, events), a), b), c)
  {
    hide Run, Next;
    var first, second := events + [a], events + [a, b];
    assert first + [b] == second && second + [c] == events + [a, b, c];
    RunAppend(s, events, a);
    RunAppend(s, first, b);
    RunAppend(s, second, c);
  }

  // ---------------------------------------------------------------- what is answered

  /** A handler that runs for this call answers with this frame. */
  predicate Handles(s: State, e: Event, id: CallId, frame: Frame) {
    && e.Respond? && e.frame == frame
    && e.execution in s.executions && s.executions[e.execution] == Execution(id, Running)
  }

  ghost predicate WasHandled(events: seq<Event>, id: CallId, frame: Frame) {
    events != [] &&
      var front := events[..|events| - 1];
      WasHandled(front, id, frame) || Handles(Run(EMPTY, front), events[|events| - 1], id, frame)
  }

  /** A frame on its way to the log, or in it, came from a handler of its call. */
  ghost predicate FramesCome(s: State, events: seq<Event>) {
    && (forall id :: id in s.log ==> WasHandled(events, id, s.log[id]))
    && (forall x :: x in s.executions && s.executions[x].phase.Storing? ==>
          WasHandled(events, s.executions[x].id, s.executions[x].phase.frame))
  }

  lemma LogComesFromStoring(s: State, e: Event, id: CallId)
    requires id in Next(s, e).log
    ensures
      || (id in s.log && Next(s, e).log[id] == s.log[id])
      || (&& e.Store? && e.execution in s.executions
          && s.executions[e.execution] == Execution(id, Storing(Next(s, e).log[id])))
  {
  }

  lemma StoringComesFromHandlers(s: State, e: Event, x: nat)
    requires x in Next(s, e).executions && Next(s, e).executions[x].phase.Storing?
    ensures
      var moved := Next(s, e).executions[x];
      (x in s.executions && s.executions[x] == moved) || Handles(s, e, moved.id, moved.phase.frame)
  {
    match e
    case Arrive(call, y, id) => assert NothingNewToStore(s, ArriveStep(s, call, y, id), x);
    case Lookup(y, ok) => LookingUpStoresNothing(s, y, ok, x);
    case Dispatch(y) => DispatchingStoresNothing(s, y, x);
    case Respond(y, frame) =>
    case Store(y, ok) => StoringEnds(s, y, ok, x);
    case ReadDuplicate(y, ok) => RereadingStoresNothing(s, y, ok, x);
    case Finish(y) => assert NothingNewToStore(s, FinishStep(s, y), x);
  }

  lemma LookingUpStoresNothing(s: State, y: nat, ok: bool, x: nat)
    ensures NothingNewToStore(s, LookupStep(s, y, ok), x)
  {
  }

  lemma DispatchingStoresNothing(s: State, y: nat, x: nat)
    ensures NothingNewToStore(s, DispatchStep(s, y), x)
  {
  }

  lemma RereadingStoresNothing(s: State, y: nat, ok: bool, x: nat)
    ensures NothingNewToStore(s, ReadDuplicateStep(s, y, ok), x)
  {
  }

  predicate NothingNewToStore(s: State, next: State, x: nat) {
    x in next.executions && next.executions[x].phase.Storing? ==> x in s.executions && s.executions[x] == next.executions[x]
  }

  lemma StoringEnds(s: State, y: nat, ok: bool, x: nat)
    ensures NothingNewToStore(s, StoreStep(s, y, ok), x)
  {
  }

  lemma StepFramesCome(s: State, front: seq<Event>, e: Event)
    requires s == Run(EMPTY, front) && FramesCome(s, front)
    ensures FramesCome(Next(s, e), front + [e])
  {
    assert (front + [e])[..|front|] == front;
    forall id | id in Next(s, e).log ensures WasHandled(front + [e], id, Next(s, e).log[id]) {
      LogComesFromStoring(s, e, id);
      hide Next, Run;
    }
    forall x | x in Next(s, e).executions && Next(s, e).executions[x].phase.Storing?
      ensures WasHandled(front + [e], Next(s, e).executions[x].id, Next(s, e).executions[x].phase.frame)
    {
      StoringComesFromHandlers(s, e, x);
      hide Next, Run;
    }
  }

  /**
    In every run a stored response is the frame that a handler of that very call answered with, and
    everybody who is answered is answered so.
   */
  lemma {:induction false} StoredFramesAreTheHandlers(events: seq<Event>)
    ensures FramesCome(Run(EMPTY, events), events)
  {
    if events != [] {
      var front := events[..|events| - 1];
      assert events == front + [events[|events| - 1]];
      StoredFramesAreTheHandlers(front);
      StepFramesCome(Run(EMPTY, front), front, events[|events| - 1]);
    }
  }

  /** A new call, not in flight. */
  predicate IsNew(s: State, call: nat, x: nat, id: CallId) {
    call !in s.calls && x !in s.executions && Key(id) !in s.inFlight
  }

  /** The system with one execution of a call in a phase and the one caller that opened it. */
  function With(s: State, call: nat, x: nat, id: CallId, phase: Phase): State {
    s.(executions := s.executions[x := Execution(id, phase)], inFlight := s.inFlight[Key(id) := x],
       calls := s.calls[call := x])
  }

  lemma Moves(s: State, call: nat, x: nat, id: CallId, from: Phase, to: Phase)
    ensures To(With(s, call, x, id, from), x, to) == With(s, call, x, id, to)
  {
  }

  /** Arrival and lookup. */
  lemma LooksUp(s: State, call: nat, x: nat, id: CallId)
    requires IsNew(s, call, x, id)
    ensures Next(Next(s, Arrive(call, x, id)), Lookup(x, true))
         == With(s, call, x, id, Looked(if id in s.log then Some(s.log[id]) else None))
    ensures Next(Next(s, Arrive(call, x, id)), Lookup(x, false)) == With(s, call, x, id, Finishing(None))
  {
    var looked := if id in s.log then Some(s.log[id]) else None;
    Moves(s, call, x, id, Looking, Looked(looked));
    Moves(s, call, x, id, Looking, Finishing(None));
  }

  /** The execution ends, is in flight no longer, and its caller is told. */
  lemma Finishes(s: State, call: nat, x: nat, id: CallId, reply: Option<Frame>)
    requires IsNew(s, call, x, id)
    ensures
      var done := Next(With(s, call, x, id, Finishing(reply)), Finish(x));
      && Reply(done, call) == reply && done.inFlight == s.inFlight
      && done.log == s.log && done.dispatches == s.dispatches && done.failedStores == s.failedStores
  {
  }

  lemma HandlerRuns(s: State, call: nat, x: nat, id: CallId)
    ensures Next(With(s, call, x, id, Looked(None)), Dispatch(x))
         == With(s.(dispatches := s.dispatches + multiset{id}), call, x, id, Running)
  {
    Moves(s.(dispatches := s.dispatches + multiset{id}), call, x, id, Looked(None), Running);
  }

  /** What is kept of a handler's frame, and what it is answered by. */
  function Kept(s: State, id: CallId, frame: Frame, ok: bool): State {
    if ok then s.(log := s.log[id := frame]) else s.(failedStores := s.failedStores + multiset{id})
  }

  lemma HandlerAnswers(s: State, call: nat, x: nat, id: CallId, frame: Frame, ok: bool)
    requires id !in s.log
    ensures Next(Next(With(s, call, x, id, Running), Respond(x, frame)), Store(x, ok))
         == With(Kept(s, id, frame, ok), call, x, id, Finishing(if ok then Some(frame) else None))
  {
    Moves(s, call, x, id, Running, Storing(frame));
    Moves(Kept(s, id, frame, ok), call, x, id, Storing(frame), Finishing(if ok then Some(frame) else None));
  }

  lemma AskingRun(s: State, call: nat, x: nat, id: CallId)
    requires IsNew(s, call, x, id) && id !in s.log
    ensures Run(s, Asking(call, x, id)) == With(s.(dispatches := s.dispatches + multiset{id}), call, x, id, Running)
  {
    RunThree(s, [], Arrive(call, x, id), Lookup(x, true), Dispatch(x));
    assert [] + Asking(call, x, id) == Asking(call, x, id);
    LooksUp(s, call, x, id);
    HandlerRuns(s, call, x, id);
    hide Next, With;
  }

  function Asking(call: nat, x: nat, id: CallId): seq<Event> {
    [Arrive(call, x, id), Lookup(x, true), Dispatch(x)]
  }

  /** Undisturbed, a new call runs its handler once and is answered with what the handler says, or with nothing. */
  lemma NewCallIsHandled(s: State, call: nat, x: nat, id: CallId, frame: Frame, ok: bool)
    requires IsNew(s, call, x, id) && id !in s.log
    ensures
      var after := Run(s, Asking(call, x, id) + [Respond(x, frame), Store(x, ok), Finish(x)]);
      && Reply(after, call) == (if ok then Some(frame) else None)
      && after.log == (if ok then s.log[id := frame] else s.log)
      && after.dispatches == s.dispatches + multiset{id} && after.inFlight == s.inFlight
  {
    hide Run, Next, With, Reply;
    var handled := s.(dispatches := s.dispatches + multiset{id});
    AskingRun(s, call, x, id);
    RunThree(s, Asking(call, x, id), Respond(x, frame), Store(x, ok), Finish(x));
    HandlerAnswers(handled, call, x, id, frame, ok);
    Finishes(Kept(handled, id, frame, ok), call, x, id, if ok then Some(frame) else None);
  }

  /** Undisturbed, a call with a stored response is answered with that, and no handler runs. */
  lemma StoredCallIsReplayed(s: State, call: nat, x: nat, id: CallId)
    requires IsNew(s, call, x, id) && id in s.log
    ensures
      var after := Run(s, Asking(call, x, id) + [Finish(x)]);
      && Reply(after, call) == Some(s.log[id]) && after.log == s.log
      && after.dispatches == s.dispatches && after.inFlight == s.inFlight
  {
    RunThree(s, [], Arrive(call, x, id), Lookup(x, true), Dispatch(x));
    assert [] + Asking(call, x, id) == Asking(call, x, id);
    RunAppend(s, Asking(call, x, id), Finish(x));
    LooksUp(s, call, x, id);
    Moves(s, call, x, id, Looked(Some(s.log[id])), Finishing(Some(s.log[id])));
    Finishes(s, call, x, id, Some(s.log[id]));
    assert DispatchStep(With(s, call, x, id, Looked(Some(s.log[id]))), x) == With(s, call, x, id, Finishing(Some(s.log[id])));
    hide Run, With, Reply;
  }

  /** An insert that meets the unique index answers with the row it met; the frame of its own handler is dropped. */
  lemma ClashAnswersTheStoredFrame(s: State, x: nat, id: CallId, frame: Frame)
    requires x in s.executions && s.executions[x] == Execution(id, Storing(frame)) && id in s.log
    ensures
      var clashed := Next(s, Store(x, true));
      && Next(clashed, ReadDuplicate(x, true)) == To(s, x, Finishing(Some(s.log[id])))
      && Next(clashed, ReadDuplicate(x, false)) == To(s, x, Finishing(None))
  {
    assert To(To(s, x, Clashed(frame)), x, Finishing(Some(s.log[id]))) == To(s, x, Finishing(Some(s.log[id])));
    assert To(To(s, x, Clashed(frame)), x, Finishing(None)) == To(s, x, Finishing(None));
  }

  /** A lookup that fails leaves its callers without an answer and runs no handler. */
  lemma FailedLookupAnswersNothing(s: State, call: nat, x: nat, id: CallId)
    requires IsNew(s, call, x, id)
    ensures
      var after := Run(s, [Arrive(call, x, id), Lookup(x, false), Finish(x)]);
      && Reply(after, call) == None && after.log == s.log && after.dispatches == s.dispatches
      && after.inFlight == s.inFlight && x in after.executions && after.executions[x].phase == Settled(None)
  {
    RunThree(s, [], Arrive(call, x, id), Lookup(x, false), Finish(x));
    assert [] + [Arrive(call, x, id), Lookup(x, false), Finish(x)] == [Arrive(call, x, id), Lookup(x, false), Finish(x)];
    LooksUp(s, call, x, id);
    Finishes(s, call, x, id, None);
    hide Run, Reply;
  }

  /** A call that is in flight joins its execution and changes nothing else. */
  lemma CallInFlightJoins(s: State, call: nat, x: nat, id: CallId)
    requires call !in s.calls && x !in s.executions && Key(id) in s.inFlight
    ensures Next(s, Arrive(call, x, id)) == s.(calls := s.calls[call := s.inFlight[Key(id)]])
  {
  }

  /** Nine steps from nothing: the response is lost, the CALL is repeated, and its handler runs again. */
  lemma HandledTwice(id: CallId, frame: Frame)
    ensures
      var lost := [Arrive(0, 0, id), Lookup(0, true), Dispatch(0)] + [Respond(0, frame), Store(0, false), Finish(0)];
      var s := Run(EMPTY, lost + [Arrive(1, 1, id), Lookup(1, true), Dispatch(1)]);
      s.dispatches[id] == 2 && id !in s.log
  {
    var handled := [Arrive(0, 0, id), Lookup(0, true), Dispatch(0)];
    var lost := handled + [Respond(0, frame), Store(0, false), Finish(0)];
    RunThree(EMPTY, [], Arrive(0, 0, id), Lookup(0, true), Dispatch(0));
    assert [] + handled == handled;
    RunThree(EMPTY, handled, Respond(0, frame), Store(0, false), Finish(0));
    RunThree(EMPTY, lost, Arrive(1, 1, id), Lookup(1, true), Dispatch(1));
    hide Next, Run;
    HandlesOnce(id);
    LosesTheResponse(Run(EMPTY, handled), id, frame);
    RunsAgain(Run(EMPTY, lost), id);
  }

  /** Execution 0 alone has run the handler of the call. */
  predicate HandlesAlone(s: State, id: CallId) {
    && s.executions == map[0 := Execution(id, Running)] && s.inFlight == map[Key(id) := 0] && s.calls == map[0 := 0]
    && s.log == map[] && s.dispatches == multiset{id}
  }

  lemma HandlesOnce(id: CallId)
    ensures HandlesAlone(Next(Next(Next(EMPTY, Arrive(0, 0, id)), Lookup(0, true)), Dispatch(0)), id)
  {
    var arrived := Next(EMPTY, Arrive(0, 0, id));
    assert arrived.executions == map[0 := Execution(id, Looking)];
    assert Next(arrived, Lookup(0, true)).executions == map[0 := Execution(id, Looked(None))];
  }

  lemma LosesTheResponse(s: State, id: CallId, frame: Frame)
    requires HandlesAlone(s, id)
    ensures
      var lost := Next(Next(Next(s, Respond(0, frame)), Store(0, false)), Finish(0));
      && id !in lost.log && Key(id) !in lost.inFlight && 1 !in lost.calls && 1 !in lost.executions
      && lost.dispatches == multiset{id}
  {
  }

  lemma RunsAgain(s: State, id: CallId)
    requires id !in s.log && Key(id) !in s.inFlight && 1 !in s.calls && 1 !in s.executions
    ensures
      var again := Next(Next(Next(s, Arrive(1, 1, id)), Lookup(1, true)), Dispatch(1));
      again.dispatches == s.dispatches + multiset{id} && again.log == s.log
  {
  }
}
