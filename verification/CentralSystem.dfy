/**
  The central system as the source runs it (apps/backend/src/ocpp/ocpp16-central-system.service.ts): one
  object whose maps are set and deleted in place. A method runs from one await to the next, is proved
  against the step that OcppDispatch, OcppCommands, OcppConnections or OcppTransactions gives for it, and
  keeps the part of the object valid that it works on; its frame keeps the rest. The tables the service
  writes are fields as well.
 */
module CentralSystemModel {
  import opened Common
  import opened MeterSample
  import C = OcppCommands
  import D = OcppDispatch
  import N = OcppConnections
  import O = OcppMeterOrder
  import T = OcppTransactions

  class Ocpp16CentralSystemService {
    // answering calls
    var inboundCalls: map<string, nat>
    var responses: map<D.CallId, D.Frame>
    var executions: map<nat, D.Execution>
    var callers: map<nat, nat>
    ghost var dispatches: multiset<D.CallId>
    ghost var failedStores: multiset<D.CallId>

    // sending commands
    var pendingCommands: map<nat, nat>
    var timers: set<nat>
    var commands: map<nat, C.Command>

    // connections
    var connections: map<nat, nat>
    var sockets: map<nat, nat>
    var openSockets: set<nat>
    var statusRows: map<nat, bool>
    var statusWrites: seq<N.Write>
    var losses: seq<nat>
    ghost var latest: map<nat, nat>
    ghost var closed: set<nat>
    ghost var dismissed: set<nat>

    // the transaction of one session
    var transaction: Option<T.Row>
    var handlers: map<nat, T.Handler>
    var published: seq<T.Published>
    var notices: seq<T.Notice>

    ghost function Dispatch(): D.State
      reads this`responses, this`inboundCalls, this`executions, this`callers, this`dispatches, this`failedStores
    {
      D.State(responses, inboundCalls, executions, callers, dispatches, failedStores)
    }

    ghost function Commands(): C.State
      reads this`commands, this`pendingCommands, this`timers
    {
      C.State(commands, pendingCommands, timers)
    }

    ghost function Connections(): N.State
      reads this`sockets, this`connections, this`openSockets, this`statusRows, this`statusWrites, this`losses
      reads this`latest, this`closed, this`dismissed
    {
      N.State(sockets, connections, openSockets, statusRows, statusWrites, losses, latest, closed, dismissed)
    }

    ghost function Transactions(): T.State
      reads this`transaction, this`handlers, this`published, this`notices
    {
      T.State(transaction, handlers, published, notices)
    }

    /** The calls in flight are exact, and every run of a handler is accounted for. */
    ghost predicate ValidCalls()
      reads this`responses, this`inboundCalls, this`executions, this`callers, this`dispatches, this`failedStores
    {
      D.Inv(Dispatch())
    }

    /** A timer runs exactly while its command is pending and unclaimed. */
    ghost predicate ValidCommands()
      reads this`commands, this`pendingCommands, this`timers
    {
      C.Inv(Commands())
    }

    /** The registry names the last accepted sockets. */
    ghost predicate ValidConnections()
      reads this`sockets, this`connections, this`openSockets, this`statusRows, this`statusWrites, this`losses
      reads this`latest, this`closed, this`dismissed
    {
      N.Inv(Connections())
    }

    /** Meters are ordered, and what handlers have read is older than the row or the row itself. */
    ghost predicate ValidTransactions()
      reads this`transaction, this`handlers, this`published, this`notices
    {
      T.Inv(Transactions())
    }

    ghost predicate Valid()
      reads this
    {
      ValidCalls() && ValidCommands() && ValidConnections() && ValidTransactions()
    }

    constructor ()
      ensures Valid()
      ensures Dispatch() == D.EMPTY && Commands() == C.EMPTY && Connections() == N.EMPTY && Transactions() == T.EMPTY
    {
      inboundCalls, responses, executions, callers := map[], map[], map[], map[];
      dispatches, failedStores := multiset{}, multiset{};
      pendingCommands, timers, commands := map[], {}, map[];
      connections, sockets, openSockets, statusRows, statusWrites, losses := map[], map[], {}, map[], [], [];
      latest, closed, dismissed := map[], {}, {};
      transaction, handlers, published, notices := None, map[], [], [];
    }

    // ---------------------------------------------------------------- answering calls

    /** `processIncomingCall`: join the call in flight or start one. Either way it is an execution of this very call. */
    method ProcessIncomingCall(call: nat, x: nat, id: D.CallId)
      requires ValidCalls() && call !in callers && x !in executions && D.ColonFree(id.chargePoint)
      modifies this`inboundCalls, this`executions, this`callers
      ensures ValidCalls() && Dispatch() == D.ArriveStep(old(Dispatch()), call, x, id)
      ensures call in callers && callers[call] in executions
      ensures executions[callers[call]].id == id && !executions[callers[call]].phase.Settled?
    {
      ArrivalJoinsItsOwn(Dispatch(), call, x, id);
      hide D.Inv;
      var key := id.chargePoint + ":" + id.uniqueId;
      if key in inboundCalls {
        callers := callers[call := inboundCalls[key]];
        return;
      }
      executions := executions[x := D.Execution(id, D.Looking)];
      inboundCalls := inboundCalls[key := x];
      callers := callers[call := x];
    }

    /** The first query of `executeIncomingCall`. */
    method ReadLog(x: nat, ok: bool)
      requires ValidCalls() && x in executions && executions[x].phase.Looking?
      modifies this`executions
      ensures ValidCalls() && Dispatch() == D.LookupStep(old(Dispatch()), x, ok)
    {
      D.LookupKeeps(Dispatch(), x, ok);
      hide D.Inv;
      var id := executions[x].id;
      if !ok {
        executions := executions[x := D.Execution(id, D.Finishing(None))];
      } else if id in responses {
        executions := executions[x := D.Execution(id, D.Looked(Some(responses[id])))];
      } else {
        executions := executions[x := D.Execution(id, D.Looked(None))];
      }
    }

    /** Answer from the log, or run the handler: it runs exactly when no response is stored by now. */
    method AnswerOrDispatch(x: nat)
      requires ValidCalls() && x in executions && executions[x].phase.Looked?
      modifies this`executions, this`dispatches
      ensures ValidCalls() && Dispatch() == D.DispatchStep(old(Dispatch()), x)
      ensures
        var id := old(executions)[x].id;
        dispatches == old(dispatches) + (if id in responses then multiset{} else multiset{id})
      ensures
        var id := old(executions)[x].id;
        id in responses ==> executions[x].phase == D.Finishing(Some(responses[id]))
    {
      D.DispatchKeeps(Dispatch(), x);
      LookedAtTheLog(Dispatch(), x);
      hide D.Inv;
      var id, cached := executions[x].id, executions[x].phase.cached;
      if cached.Some? {
        executions := executions[x := D.Execution(id, D.Finishing(cached))];
        return;
      }
      dispatches := dispatches + multiset{id};
      executions := executions[x := D.Execution(id, D.Running)];
    }

    /** `ocppMessage.create`; `ok` is false for any failure but the unique index, which is never met. */
    method StoreResponse(x: nat, ok: bool)
      requires ValidCalls() && x in executions && executions[x].phase.Storing?
      modifies this`executions, this`responses, this`failedStores
      ensures ValidCalls() && Dispatch() == D.StoreStep(old(Dispatch()), x, ok)
      ensures executions[x].phase == D.Finishing(if ok then Some(old(executions)[x].phase.frame) else None)
      ensures
        var id, frame := old(executions)[x].id, old(executions)[x].phase.frame;
        id !in old(responses) && responses == if ok then old(responses)[id := frame] else old(responses)
    {
      D.NextKeepsInv(Dispatch(), D.Store(x, ok));
      hide D.Inv;
      var id, frame := executions[x].id, executions[x].phase.frame;
      if !ok {
        failedStores := failedStores + multiset{id};
        executions := executions[x := D.Execution(id, D.Finishing(None))];
      } else if id in responses {
        executions := executions[x := D.Execution(id, D.Clashed(frame))];
      } else {
        responses := responses[id := frame];
        executions := executions[x := D.Execution(id, D.Finishing(Some(frame)))];
      }
      StoringMeetsNoOther(old(Dispatch()), x);
    }

    /** The `finally` of `processIncomingCall`: the call is no longer in flight, in any execution. */
    method FinishCall(x: nat)
      requires ValidCalls() && x in executions && executions[x].phase.Finishing?
      modifies this`executions, this`inboundCalls
      ensures ValidCalls() && Dispatch() == D.FinishStep(old(Dispatch()), x)
      ensures D.Key(executions[x].id) !in inboundCalls
      ensures forall y :: y in executions && executions[y].id == executions[x].id ==> executions[y].phase.Settled?
    {
      D.FinishKeeps(Dispatch(), x);
      FinishedEverywhere(Dispatch(), x);
      hide D.Inv;
      var id, reply := executions[x].id, executions[x].phase.reply;
      inboundCalls := inboundCalls - {id.chargePoint + ":" + id.uniqueId};
      executions := executions[x := D.Execution(id, D.Settled(reply))];
    }

    // ---------------------------------------------------------------- sending commands

    /** The promise of `sendCall`, once the message row is written or could not be. */
    method RegisterAndSend(uid: nat, ok: bool)
      requires ValidCommands() && uid in commands && commands[uid].phase.Recording?
      modifies this`commands, this`pendingCommands, this`timers
      ensures ValidCommands() && Commands() == C.RecordStep(old(Commands()), uid, ok)
      ensures uid in commands
      ensures ok ==> uid in pendingCommands && uid in timers
      ensures !ok ==> uid !in pendingCommands && uid !in timers && commands[uid].outcome == Some(C.Rejected)
    {
      C.NextKeepsInv(Commands(), C.Record(uid, ok));
      assert C.Fits(Commands(), uid);
      hide C.Inv;
      var command := commands[uid];
      if !ok {
        commands := commands[uid := C.Settled(command.(phase := C.Unrecorded), C.Rejected)];
        return;
      }
      timers := timers + {uid};
      pendingCommands := pendingCommands[uid := command.chargePoint];
      commands := commands[uid := command.(phase := C.Sent)];
    }

    /** `processCommandResponse` up to its update; it matches exactly for an unclaimed command of that charge point. */
    method ProcessCommandResponse(uid: nat, from: nat) returns (matched: bool)
      requires ValidCommands()
      modifies this`commands, this`pendingCommands, this`timers
      ensures ValidCommands() && Commands() == C.ResponseStep(old(Commands()), uid, from)
      ensures matched <==>
        && uid in old(commands) && old(commands)[uid].phase.Sent? && old(commands)[uid].claim.None?
        && old(commands)[uid].chargePoint == from
      ensures matched ==> uid !in timers && uid in commands && commands[uid].claim == Some(C.ByResponse)
    {
      C.NextKeepsInv(Commands(), C.Response(uid, from));
      assert C.Fits(Commands(), uid);
      hide C.Inv;
      if uid !in pendingCommands || pendingCommands[uid] != from || uid !in commands {
        return false;
      }
      pendingCommands := pendingCommands - {uid};
      timers := timers - {uid};
      commands := commands[uid := commands[uid].(claim := Some(C.ByResponse), settling := true)];
      return true;
    }

    /** A timer that fires finds its command unclaimed and its caller untold. */
    method CommandTimesOut(uid: nat)
      requires ValidCommands() && uid in timers
      modifies this`commands, this`pendingCommands, this`timers
      ensures ValidCommands() && Commands() == C.TimeoutStep(old(Commands()), uid)
      ensures uid in old(commands) && old(commands)[uid].claim.None? && old(commands)[uid].outcome.None?
      ensures uid in commands && commands[uid].claim == Some(C.ByTimeout) && commands[uid].outcome == Some(C.Rejected)
    {
      C.NextKeepsInv(Commands(), C.Timeout(uid));
      assert C.Fits(Commands(), uid);
      hide C.Inv;
      timers := timers - {uid};
      pendingCommands := pendingCommands - {uid};
      commands := commands[uid := C.Settled(commands[uid].(claim := Some(C.ByTimeout)), C.Rejected)];
    }

    /** The error branch of the send callback: the caller is told, unless it was told before. */
    method SendFailed(uid: nat)
      requires ValidCommands() && uid in commands && commands[uid].phase.Sent?
      modifies this`commands, this`pendingCommands, this`timers
      ensures ValidCommands() && Commands() == C.SendFailsStep(old(Commands()), uid)
      ensures uid !in pendingCommands && uid !in timers && uid in commands && commands[uid].claim.Some?
      ensures commands[uid].outcome ==
        if old(commands)[uid].outcome.Some? then old(commands)[uid].outcome else Some(C.Rejected)
    {
      C.NextKeepsInv(Commands(), C.SendFails(uid));
      assert C.Fits(Commands(), uid);
      hide C.Inv;
      var command := commands[uid];
      timers := timers - {uid};
      if uid in pendingCommands {
        command := command.(claim := Some(C.BySendError));
      }
      pendingCommands := pendingCommands - {uid};
      commands := commands[uid := C.Settled(command, C.Rejected)];
    }

    /** The commands part of `close`: reject what is pending one by one, then clear the map; no timer is left. */
    method RejectPendingCommands()
      requires ValidCommands()
      modifies this`commands, this`pendingCommands, this`timers
      ensures ValidCommands() && Commands() == C.ShutdownStep(old(Commands()))
      ensures pendingCommands == map[] && timers == {}
      ensures forall uid :: uid in old(pendingCommands) ==> uid in commands && commands[uid].outcome == Some(C.Rejected)
    {
      C.NextKeepsInv(Commands(), C.Shutdown);
      PendingHasTimers(Commands());
      hide C.Inv;
      ghost var before := commands;
      var left := pendingCommands.Keys;
      while left != {}
        invariant left <= pendingCommands.Keys && pendingCommands == old(pendingCommands)
        invariant commands.Keys == before.Keys
        invariant forall uid :: uid in commands ==>
          commands[uid] == if uid in pendingCommands && uid !in left
                           then C.Settled(before[uid].(claim := Some(C.ByShutdown)), C.Rejected) else before[uid]
        invariant timers == old(timers) - (pendingCommands.Keys - left)
        decreases left
      {
        var uid :| uid in left;
        timers := timers - {uid};
        commands := commands[uid := C.Settled(commands[uid].(claim := Some(C.ByShutdown)), C.Rejected)];
        left := left - {uid};
      }
      assert timers == old(timers) - old(pendingCommands).Keys;
      pendingCommands := map[];
      assert commands == C.ShutdownStep(old(Commands())).commands;
    }

    // ---------------------------------------------------------------- connections

    /** `acceptConnection`: the new socket is the only open one of its charge point. */
    method AcceptConnection(socket: nat, chargePoint: nat)
      requires ValidConnections() && socket !in sockets
      modifies this`connections, this`sockets, this`openSockets, this`statusWrites, this`latest
      ensures ValidConnections() && Connections() == N.AcceptStep(old(Connections()), socket, chargePoint)
      ensures socket in openSockets && chargePoint in connections && connections[chargePoint] == socket
      ensures forall other :: other in openSockets && other != socket ==> other in sockets && sockets[other] != chargePoint
    {
      hide N.Inv;
      N.AcceptKeepsInv(Connections(), socket, chargePoint);
      OnlyOpenSocket(N.AcceptStep(Connections(), socket, chargePoint), socket);
      if chargePoint in connections {
        openSockets := openSockets - {connections[chargePoint]};
      }
      assert openSockets == old(openSockets) - (if chargePoint in connections then {connections[chargePoint]} else {});
      sockets := sockets[socket := chargePoint];
      openSockets := openSockets + {socket};
      connections := connections[chargePoint := socket];
      latest := latest[chargePoint := socket];
      statusWrites := statusWrites + [N.Write(chargePoint, true)];
    }

    /** The close event and `handleDisconnect`: a replaced socket closes without leaving registry, rows or sessions a trace. */
    method HandleDisconnect(socket: nat)
      requires ValidConnections() && socket in sockets && socket !in closed
      modifies this`connections, this`openSockets, this`statusWrites, this`losses, this`closed
      ensures ValidConnections() && Connections() == N.CloseStep(old(Connections()), socket)
      ensures
        var replaced := socket in dismissed || latest != latest[sockets[socket] := socket];
        (connections == old(connections) <==> replaced) && (statusWrites == old(statusWrites) <==> replaced)
        && (losses == old(losses) <==> replaced)
    {
      hide N.Inv;
      N.CloseKeepsInv(Connections(), socket);
      ClosingLeavesATraceIff(Connections(), socket);
      closed := closed + {socket};
      openSockets := openSockets - {socket};
      var chargePoint := sockets[socket];
      if chargePoint !in connections || connections[chargePoint] != socket {
        return;
      }
      connections := connections - {chargePoint};
      statusWrites := statusWrites + [N.Write(chargePoint, false)];
      losses := losses + [chargePoint];
    }

    /** The connections part of `close`: no socket stays open. */
    method CloseAllConnections()
      requires ValidConnections()
      modifies this`connections, this`openSockets, this`dismissed
      ensures ValidConnections() && Connections() == N.ShutdownStep(old(Connections()))
      ensures connections == map[] && openSockets == {}
    {
      hide N.Inv;
      N.ShutdownKeepsInv(Connections());
      ShutdownClosesAll(Connections());
      dismissed := dismissed + connections.Values;
      openSockets := openSockets - connections.Values;
      connections := map[];
    }

    // ---------------------------------------------------------------- transactions

    /** `handleStartTransaction` up to its first write. */
    method ReadForStart(id: nat, meterWh: nat)
      requires ValidTransactions() && id !in handlers
      modifies this`handlers, this`notices
      ensures ValidTransactions() && Transactions() == T.StartFrameStep(old(Transactions()), id, meterWh)
      ensures id in handlers
      ensures notices != old(notices) <==>
        transaction.Some? && transaction.value.status == T.ACTIVE && transaction.value.start.value <= meterWh
    {
      T.NextKeepsInv(Transactions(), T.StartFrame(id, meterWh));
      assert transaction.Some? ==> T.RowInv(transaction.value);
      hide T.Inv;
      if transaction.None? || (transaction.value.status != T.REMOTE_START_PENDING && transaction.value.status != T.ACTIVE) {
        handlers := handlers[id := T.Answered(false)];
        return;
      }
      var row := transaction.value;
      if row.start.Some? && meterWh < row.start.value {
        handlers := handlers[id := T.Answered(false)];
      } else if row.status != T.ACTIVE {
        handlers := handlers[id := T.StartWriting(row, meterWh)];
      } else {
        notices := notices + [T.StartNotice(meterWh)];
        handlers := handlers[id := T.Answered(true)];
      }
    }

    /** Its compare-and-set on status and version: refused by the database only under an earlier stop meter. */
    method WriteStart(id: nat)
      requires ValidTransactions() && id in handlers && handlers[id].StartWriting? && transaction.Some?
      modifies this`handlers, this`transaction
      ensures ValidTransactions() && Transactions() == T.StartWriteStep(old(Transactions()), id)
      ensures id in handlers
      ensures
        var row, handler := old(transaction).value, old(handlers)[id];
        handlers[id].StartNotifying? <==>
          && T.StartMatches(row, handler.known)
          && !(row.stop.Some? && row.stop.value < handler.meterWh)
    {
      hide T.Inv;
      T.NextKeepsInv(Transactions(), T.StartWrite(id));
      O.CheckGuardsOnlyLaterStarts(Transactions(), T.StartWrite(id));
      var row, known, meterWh := transaction.value, handlers[id].known, handlers[id].meterWh;
      var matches := row.status == T.REMOTE_START_PENDING && row.version == known.version;
      var written := row.(status := T.ACTIVE, version := row.version + 1, start := Some(meterWh), last := Some(meterWh));
      if matches && T.MeterCheck(written) {
        transaction := Some(written);
        handlers := handlers[id := T.StartNotifying(meterWh)];
      } else {
        handlers := handlers[id := T.Answered(false)];
      }
    }

    /** `handleMeterValues` up to its first write. */
    method ReadForMeter(id: nat, samples: seq<Sample>)
      requires ValidTransactions() && id !in handlers
      modifies this`handlers
      ensures ValidTransactions() && Transactions() == T.MeterFrameStep(old(Transactions()), id, samples)
      ensures id in handlers && (handlers[id].Metering? <==> TakesMeters(transaction))
    {
      hide T.Inv;
      T.NextKeepsInv(Transactions(), T.MeterFrame(id, samples));
      if transaction.None? || (transaction.value.status != T.ACTIVE && transaction.value.status != T.STOPPING) {
        handlers := handlers[id := T.Answered(false)];
      } else {
        handlers := handlers[id := T.Metering(transaction.value, samples)];
      }
    }

    /** One round of its loop up to the write, which compares the version only; the last meter never falls. */
    method WriteSample(id: nat)
      requires ValidTransactions() && id in handlers && handlers[id].Metering? && transaction.Some?
      modifies this`handlers, this`transaction
      ensures ValidTransactions() && Transactions() == T.MeterWriteStep(old(Transactions()), id)
      ensures transaction.Some? && O.AtMost(old(transaction).value.last, transaction.value.last)
      ensures id in handlers && (handlers[id].Rereading? <==> transaction != old(transaction))
    {
      hide T.Inv;
      T.NextKeepsInv(Transactions(), T.MeterWrite(id));
      O.LastFallsOnlyAtAStart(Transactions(), T.MeterWrite(id));
      var known, samples := handlers[id].known, handlers[id].samples;
      if samples == [] {
        handlers := handlers[id := T.Answered(true)];
        return;
      }
      var values := ExtractMeterSample(samples[0], known.last);
      if !values.Extracted? || values.meterWh < T.Floor(known) {
        handlers := handlers[id := T.Answered(false)];
        return;
      }
      var row := transaction.value;
      var written := row.(last := Some(values.meterWh), version := row.version + 1);
      if row.version == known.version && T.MeterCheck(written) {
        transaction := Some(written);
        handlers := handlers[id := T.Rereading(values.meterWh, samples[1..])];
      } else {
        handlers := handlers[id := T.Answered(false)];
      }
    }

    /** `handleStopTransaction` up to its write. */
    method ReadForStop(id: nat, meterWh: nat)
      requires ValidTransactions() && id !in handlers
      modifies this`handlers
      ensures ValidTransactions() && Transactions() == T.StopFrameStep(old(Transactions()), id, meterWh)
      ensures id in handlers
      ensures handlers[id].StopWriting? <==>
        transaction.Some? && transaction.value.status != T.COMPLETED && T.Floor(transaction.value) <= meterWh
    {
      hide T.Inv;
      T.NextKeepsInv(Transactions(), T.StopFrame(id, meterWh));
      if transaction.None? {
        handlers := handlers[id := T.Answered(false)];
      } else if transaction.value.status == T.COMPLETED {
        handlers := handlers[id := T.Answered(true)];
      } else {
        handlers := handlers[id :=
          if meterWh < T.Floor(transaction.value) then T.Answered(false) else T.StopWriting(transaction.value, meterWh)];
      }
    }

    /** Its compare-and-set; a lost one goes on to the notification without the event. The database never refuses it. */
    method WriteStop(id: nat)
      requires ValidTransactions() && id in handlers && handlers[id].StopWriting? && transaction.Some?
      modifies this`handlers, this`transaction
      ensures ValidTransactions() && Transactions() == T.StopWriteStep(old(Transactions()), id)
      ensures
        var meterWh := old(handlers)[id].meterWh;
        && id in handlers && transaction.Some?
        && (handlers[id] == T.StopPublishing(meterWh) || handlers[id] == T.StopNotifying(meterWh))
        && (handlers[id].StopPublishing? ==>
              transaction.value.status == T.COMPLETED && transaction.value.stop == transaction.value.last == Some(meterWh))
        && (handlers[id].StopNotifying? ==> transaction == old(transaction))
    {
      hide T.Inv;
      T.NextKeepsInv(Transactions(), T.StopWrite(id));
      var row, known, meterWh := transaction.value, handlers[id].known, handlers[id].meterWh;
      var written := row.(status := T.COMPLETED, version := row.version + 1, last := Some(meterWh), stop := Some(meterWh));
      if (row.status != T.ACTIVE && row.status != T.STOPPING) || row.version != known.version {
        handlers := handlers[id := T.StopNotifying(meterWh)];
      } else if !T.MeterCheck(written) {
        handlers := handlers[id := T.Answered(false)];
      } else {
        transaction := Some(written);
        handlers := handlers[id := T.StopPublishing(meterWh)];
      }
      O.CheckGuardsOnlyLaterStarts(old(Transactions()), T.StopWrite(id));
    }

    /** One round of the loop in `handleMeterValues` when nothing comes in between; the relay may refuse the event. */
    method HandleSample(id: nat, delivered: bool)
      requires ValidTransactions() && id in handlers && handlers[id].Metering? && transaction == Some(handlers[id].known)
      modifies this`handlers, this`transaction, this`published
      ensures ValidTransactions()
      ensures id in handlers && handlers == old(handlers)[id := handlers[id]]
      ensures
        var row, samples := old(transaction).value, old(handlers)[id].samples;
        var meter := NextStored(row, samples);
        if meter.None? then
          handlers[id] == T.Answered(samples == []) && transaction == old(transaction) && published == old(published)
        else
          && handlers[id] == (if delivered then T.Metering(T.Metered(row, meter.value), samples[1..]) else T.Answered(false))
          && transaction == Some(T.Metered(row, meter.value))
          && published == old(published) + [T.MeterValue(meter.value)]
    {
      hide T.Inv;
      WriteSample(id);
      if handlers[id].Rereading? {
        T.NextKeepsInv(Transactions(), T.Reread(id));
        handlers := handlers[id := T.Publishing(transaction.value, handlers[id].meterWh, handlers[id].samples)];
        T.NextKeepsInv(Transactions(), T.Publish(id, delivered));
        published := published + [T.MeterValue(handlers[id].meterWh)];
        handlers := handlers[id :=
          if delivered then T.Metering(handlers[id].known, handlers[id].samples) else T.Answered(false)];
      }
      SampleRound(old(Transactions()), id, delivered);
      assert Transactions() == T.PublishStep(T.RereadStep(T.MeterWriteStep(old(Transactions()), id), id), id, delivered);
      hide T.PublishStep, T.RereadStep, T.MeterWriteStep;
    }

    /**
      `handleMeterValues` without interference: its loop over the samples stores and publishes them one
      by one until one is refused or the relay throws.
     */
    method HandleMeterValues(id: nat, samples: seq<Sample>, delivered: seq<bool>) returns (accepted: bool)
      requires ValidTransactions() && id !in handlers && |delivered| == |samples|
      modifies this`handlers, this`transaction, this`published
      ensures ValidTransactions()
      ensures handlers == old(handlers)[id := T.Answered(accepted)]
      ensures !TakesMeters(old(transaction)) ==>
        !accepted && transaction == old(transaction) && published == old(published)
      ensures TakesMeters(old(transaction)) ==>
        var all := MeterAll(old(transaction).value, samples, delivered);
        transaction == Some(all.row) && accepted == all.accepted && published == old(published) + Values(all.meters)
    {
      hide T.Inv;
      ReadForMeter(id, samples);
      hide MeterAll, NextStored;
      if handlers[id].Answered? {
        return false;
      }
      ghost var all := MeterAll(transaction.value, samples, delivered);
      ghost var meters: seq<nat> := [];
      var deliveries := delivered;
      while handlers[id].Metering?
        invariant ValidTransactions()
        invariant id in handlers && handlers == old(handlers)[id := handlers[id]]
        invariant transaction.Some? && published == old(published) + Values(meters)
        invariant match handlers[id]
                  case Metering(known, rest) =>
                    && |deliveries| == |rest| && transaction.value == known
                    && Remains(all, meters, MeterAll(known, rest, deliveries))
                  case Answered(ok) => all == Metered(transaction.value, meters, ok)
                  case _ => false
        decreases if handlers[id].Metering? then |handlers[id].samples| + 1 else 0
      {
        ghost var row, rest := transaction.value, handlers[id].samples;
        ghost var next := NextStored(row, rest);
        HandleSample(id, deliveries != [] && deliveries[0]);
        if next.None? {
          NothingRemains(all, meters, row, rest, deliveries);
        } else {
          ValuesAppend(old(published), meters, next.value);
          RemainsAfterOne(all, meters, row, rest, deliveries);
          meters := meters + [next.value];
        }
        deliveries := if deliveries == [] then [] else deliveries[1..];
      }
      accepted := handlers[id].accepted;
    }
  }

  // ---------------------------------------------------------------- what the methods promise

  lemma ArrivalJoinsItsOwn(s: D.State, call: nat, x: nat, id: D.CallId)
    requires D.Inv(s) && call !in s.calls && x !in s.executions && D.ColonFree(id.chargePoint)
    ensures D.Inv(D.ArriveStep(s, call, x, id))
    ensures
      var after := D.ArriveStep(s, call, x, id);
      && call in after.calls && after.calls[call] in after.executions
      && after.executions[after.calls[call]].id == id && !after.executions[after.calls[call]].phase.Settled?
  {
    D.ArriveKeeps(s, call, x, id);
    if D.Key(id) in s.inFlight {
      D.KeyIsInjective(s.executions[s.inFlight[D.Key(id)]].id, id);
    }
  }

  lemma LookedAtTheLog(s: D.State, x: nat)
    requires D.Inv(s) && x in s.executions && s.executions[x].phase.Looked?
    ensures s.executions[x].phase.cached == if s.executions[x].id in s.log then Some(s.log[s.executions[x].id]) else None
  {
    assert D.PhaseFits(s.executions[x], s.log);
  }

  lemma StoringMeetsNoOther(s: D.State, x: nat)
    requires D.Inv(s) && x in s.executions && s.executions[x].phase.Storing?
    ensures s.executions[x].id !in s.log
  {
    assert D.PhaseFits(s.executions[x], s.log);
  }

  lemma FinishedEverywhere(s: D.State, x: nat)
    requires D.Inv(s) && x in s.executions && s.executions[x].phase.Finishing?
    ensures
      var after := D.FinishStep(s, x);
      && x in after.executions
      && forall y :: y in after.executions && after.executions[y].id == s.executions[x].id ==> after.executions[y].phase.Settled?
  {
    forall y | y in s.executions && s.executions[y].id == s.executions[x].id && !s.executions[y].phase.Settled? ensures y == x {
      D.SameCall(s, x, y);
    }
  }

  lemma PendingHasTimers(s: C.State)
    requires C.Inv(s)
    ensures s.timers == s.pending.Keys && s.pending.Keys <= s.commands.Keys
    ensures forall uid :: uid in s.pending ==> s.commands[uid].outcome.None?
  {
    forall uid ensures uid in s.timers <==> uid in s.pending.Keys
      ensures uid in s.pending ==> uid in s.commands && s.commands[uid].outcome.None?
    {
      assert C.Fits(s, uid);
    }
  }

  lemma OnlyOpenSocket(s: N.State, socket: nat)
    requires N.Inv(s) && socket in s.open && socket in s.sockets
    ensures forall other :: other in s.open && other != socket ==> other in s.sockets && s.sockets[other] != s.sockets[socket]
  {
  }

  lemma ClosingLeavesATraceIff(s: N.State, socket: nat)
    requires N.Inv(s) && socket in s.sockets && socket !in s.closed
    ensures
      var after := N.CloseStep(s, socket);
      var replaced := socket in s.dismissed || s.latest != s.latest[s.sockets[socket] := socket];
      && (after.connections == s.connections <==> replaced)
      && (after.writes == s.writes <==> replaced)
      && (after.losses == s.losses <==> replaced)
  {
  }

  lemma ShutdownClosesAll(s: N.State)
    requires N.Inv(s)
    ensures N.ShutdownStep(s).open == {}
  {
  }

  // ---------------------------------------------------------------- a frame without interference

  /** What one round does to the row when it is as the handler knows it. */
  lemma SampleRound(s: T.State, id: nat, delivered: bool)
    requires id in s.handlers && s.handlers[id].Metering? && s.row == Some(s.handlers[id].known)
    ensures
      var row, samples := s.row.value, s.handlers[id].samples;
      var after := T.PublishStep(T.RereadStep(T.MeterWriteStep(s, id), id), id, delivered);
      var meter := NextStored(row, samples);
      && id in after.handlers && after.handlers == s.handlers[id := after.handlers[id]] && after.notices == s.notices
      && if meter.None? then
           after.handlers[id] == T.Answered(samples == []) && after.row == s.row && after.published == s.published
         else
           && after.handlers[id] == (if delivered then T.Metering(T.Metered(row, meter.value), samples[1..]) else T.Answered(false))
           && after.row == Some(T.Metered(row, meter.value))
           && after.published == s.published + [T.MeterValue(meter.value)]
  {
  }

  /** The transactions that a MeterValues frame is accepted for. */
  predicate TakesMeters(transaction: Option<T.Row>) {
    transaction.Some? && (transaction.value.status == T.ACTIVE || transaction.value.status == T.STOPPING)
  }

  datatype Metered = Metered(row: T.Row, meters: seq<nat>, accepted: bool)

  /** The meter of the first sample, if it is stored. */
  function NextStored(row: T.Row, samples: seq<Sample>): Option<nat> {
    var meter := T.NextMeter(row, samples);
    if meter.Some? && T.MeterCheck(T.Metered(row, meter.value)) then meter else None
  }

  /** What a MeterValues frame does to the row when nothing comes between its samples; `meters` went to the relay. */
  function MeterAll(row: T.Row, samples: seq<Sample>, delivered: seq<bool>): Metered
    requires |delivered| == |samples|
    decreases |samples|
  {
    var meter := NextStored(row, samples);
    if meter.None? then Metered(row, [], samples == [])
    else if !delivered[0] then Metered(T.Metered(row, meter.value), [meter.value], false)
    else
      var rest := MeterAll(T.Metered(row, meter.value), samples[1..], delivered[1..]);
      rest.(meters := [meter.value] + rest.meters)
  }

  /** After storing `meters`, `rest` is what is left of `all`. */
  predicate Remains(all: Metered, meters: seq<nat>, rest: Metered) {
    all == rest.(meters := meters + rest.meters)
  }

  function Values(meters: seq<nat>): seq<T.Published> {
    seq(|meters|, i requires 0 <= i < |meters| => T.MeterValue(meters[i]))
  }

  lemma ValuesAppend(before: seq<T.Published>, meters: seq<nat>, meterWh: nat)
    ensures before + Values(meters + [meterWh]) == before + Values(meters) + [T.MeterValue(meterWh)]
  {
  }

  lemma NothingRemains(all: Metered, meters: seq<nat>, row: T.Row, samples: seq<Sample>, delivered: seq<bool>)
    requires |delivered| == |samples|
    requires Remains(all, meters, MeterAll(row, samples, delivered)) && NextStored(row, samples).None?
    ensures all == Metered(row, meters, samples == [])
  {
  }

  lemma RemainsAfterOne(all: Metered, meters: seq<nat>, row: T.Row, samples: seq<Sample>, delivered: seq<bool>)
    requires |delivered| == |samples|
    requires Remains(all, meters, MeterAll(row, samples, delivered)) && NextStored(row, samples).Some?
    ensures
      var meterWh := NextStored(row, samples).value;
      if delivered[0] then
        Remains(all, meters + [meterWh], MeterAll(T.Metered(row, meterWh), samples[1..], delivered[1..]))
      else all == Metered(T.Metered(row, meterWh), meters + [meterWh], false)
  {
  }

  /**
    Alone, a frame publishes meters that never run backwards, all from the row's own meter upwards; the
    row ends at the last of them; the frame is accepted exactly when every sample was stored and delivered.
   */
  lemma {:induction false} FramesMeterForward(row: T.Row, samples: seq<Sample>, delivered: seq<bool>)
    requires |delivered| == |samples|
    ensures
      var all := MeterAll(row, samples, delivered);
      && |all.meters| <= |samples|
      && (forall i :: 0 <= i < |all.meters| ==> T.Floor(row) <= all.meters[i])
      && (forall i, j :: 0 <= i <= j < |all.meters| ==> all.meters[i] <= all.meters[j])
      && all.row == row.(version := row.version + |all.meters|,
                         last := if all.meters == [] then row.last else Some(all.meters[|all.meters| - 1]))
      && (all.accepted <==> |all.meters| == |samples| && forall i :: 0 <= i < |samples| ==> delivered[i])
    decreases |samples|
  {
    var meter := NextStored(row, samples);
    if meter.Some? && delivered[0] {
      FramesMeterForward(T.Metered(row, meter.value), samples[1..], delivered[1..]);
      assert delivered == [delivered[0]] + delivered[1..];
    }
  }

  /** The meter that the i-th sample of a frame is read after. */
  function MeterBefore(row: T.Row, meters: seq<nat>, i: nat): Option<nat>
    requires i <= |meters|
  {
    if i == 0 then row.last else Some(meters[i - 1])
  }

  /** A sample that is not stored cannot be read, or its meter runs backwards. */
  predicate Backwards(row: T.Row, previous: Option<nat>, sample: Sample) {
    var reading := Extract(sample, previous);
    reading.Extracted? ==>
      if previous.Some? then reading.meterWh < previous.value else row.start.Some? && reading.meterWh < row.start.value
  }

  /**
    Alone, a frame publishes what its samples read, one by one, each after the meter before it; when it
    stops short, its last event was not delivered or the next sample cannot be read or runs backwards.
   */
  lemma {:induction false} FramesReadTheirSamples(row: T.Row, samples: seq<Sample>, delivered: seq<bool>)
    requires |delivered| == |samples| && T.RowInv(row)
    ensures
      var meters := MeterAll(row, samples, delivered).meters;
      && |meters| <= |samples|
      && (forall i :: 0 <= i < |meters| ==>
            var reading := Extract(samples[i], MeterBefore(row, meters, i));
            reading.Extracted? && reading.meterWh == meters[i])
      && (|meters| < |samples| ==>
            || (meters != [] && !delivered[|meters| - 1])
            || Backwards(row, MeterBefore(row, meters, |meters|), samples[|meters|]))
    decreases |samples|
  {
    var meter := NextStored(row, samples);
    if meter.Some? && delivered[0] {
      var next := T.Metered(row, meter.value);
      FramesReadTheirSamples(next, samples[1..], delivered[1..]);
      var meters, rest := MeterAll(row, samples, delivered).meters, MeterAll(next, samples[1..], delivered[1..]).meters;
      assert meters == [meter.value] + rest;
      forall i | 0 <= i <= |rest| ensures MeterBefore(row, meters, i + 1) == MeterBefore(next, rest, i) {
      }
      hide Extract, MeterAll;
      forall i | 0 <= i < |meters|
        ensures
          var reading := Extract(samples[i], MeterBefore(row, meters, i));
          reading.Extracted? && reading.meterWh == meters[i]
      {
        if i > 0 {
          assert samples[i] == samples[1..][i - 1] && meters[i] == rest[i - 1];
        }
      }
    }
  }
}

/** One entry of `pendingStarts` or `pendingStops` and the waiters around it. */
module PendingValueModel {
  import opened Common
  import W = OcppWakeup

  class PendingValue {
    var entry: Option<nat>
    var waiters: map<nat, W.Waiter>
    ghost const awaited: W.Awaited
    ghost var stored: Option<nat>
    ghost var owed: map<nat, W.Notice>
    var told: nat
    ghost var values: set<nat>
    ghost var announced: set<nat>

    ghost function State(): W.State
      reads this
    {
      W.State(awaited, stored, owed, entry, waiters, told, values, announced)
    }

    /** The entry is a waiter that still waits, and what anybody was told was stored or announced. */
    ghost predicate Valid()
      reads this
    {
      W.Inv(State())
    }

    constructor (awaited: W.Awaited)
      ensures Valid() && State() == W.Start(awaited)
    {
      this.awaited := awaited;
      entry, waiters := None, map[];
      stored, owed, told, values, announced := None, map[], 0, {}, {};
    }

    /** `waitForValue` after its first check: settle at once, or set the timer and enter the map. */
    method Continue(id: nat)
      requires Valid() && id in waiters && waiters[id].phase.Checked?
      modifies this`entry, this`waiters
      ensures Valid() && State() == W.ContinueStep(old(State()), id)
      ensures id in waiters
      ensures waiters[id].phase.Registered? ==> entry == Some(id)
      ensures waiters[id].phase.Resolved? ==> entry == old(entry) && waiters[id].phase.meterWh in values
    {
      W.NextKeepsInv(State(), W.Event.Continue(id));
      assert W.WaiterInv(State(), waiters[id]);
      hide W.Inv;
      var found := waiters[id].phase.found;
      if found.Some? {
        waiters := waiters[id := waiters[id].(phase := W.Resolved(found.value, W.BY_CHECK))];
        return;
      }
      waiters := waiters[id := W.Waiter(W.Registered, W.Querying, told)];
      entry := Some(id);
    }

    /** Whoever is in the map leaves it with the value. */
    method Resolve(meterWh: nat, source: W.Source)
      modifies this`entry, this`waiters
      ensures State() == W.Settle(old(State()), meterWh, source)
    {
      if entry.None? || entry.value !in waiters {
        return;
      }
      waiters := waiters[entry.value := waiters[entry.value].(phase := W.Resolved(meterWh, source))];
      entry := None;
    }

    /** `resolveStart`, `resolveStop`, called by handler `n` with its meter: nobody is left in the map. */
    method Notify(ghost n: nat, meterWh: nat)
      requires Valid() && n in owed && owed[n] == W.Notice(meterWh, false)
      modifies this`entry, this`waiters, this`owed, this`told
      ensures Valid() && State() == W.NotifyStep(old(State()), n)
      ensures entry.None?
      ensures old(entry).Some? ==>
        old(entry).value in waiters && waiters[old(entry).value].phase == W.Resolved(meterWh, W.BY_NOTICE)
    {
      W.NextKeepsInv(State(), W.Event.Notify(n));
      assert entry.Some? ==> entry.value in waiters;
      hide W.Inv;
      Resolve(meterWh, W.BY_NOTICE);
      owed, told := owed - {n}, told + 1;
    }

    /** The continuation of the second check: a value settles whoever is in the map. */
    method FinishRecheck(id: nat)
      requires Valid() && id in waiters && waiters[id].recheck.Found?
      modifies this`entry, this`waiters
      ensures Valid() && State() == W.RecheckContinueStep(old(State()), id)
      ensures old(waiters)[id].recheck.value.Some? ==> entry.None?
    {
      W.NextKeepsInv(State(), W.RecheckContinue(id));
      assert entry.Some? ==> entry.value in waiters;
      hide W.Inv;
      var value := waiters[id].recheck.value;
      waiters := waiters[id := waiters[id].(recheck := W.Finished(value))];
      if value.Some? {
        Resolve(value.value, W.BY_CHECK);
      }
    }

    /** The timer: it deletes the key, whoever holds it. */
    method Expire(id: nat)
      requires Valid() && id in waiters && waiters[id].phase.Registered?
      modifies this`entry, this`waiters
      ensures Valid() && State() == W.Next(old(State()), W.Timeout(id))
      ensures entry.None? && waiters == old(waiters)[id := waiters[id]] && waiters[id].phase.TimedOut?
    {
      W.NextKeepsInv(State(), W.Timeout(id));
      hide W.Inv;
      entry := None;
      waiters := waiters[id := waiters[id].(phase := W.TimedOut)];
    }
  }
}
