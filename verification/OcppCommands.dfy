/**
  Commands sent to charge points and who settles them (`sendCall`, `processCommandResponse` and `close`
  in apps/backend/src/ocpp/ocpp16-central-system.service.ts).

  A command is claimed when it leaves the pending map. Its caller's promise takes the first outcome.
 */
module OcppCommands {
  import opened Common

  datatype Claim = ByResponse | ByTimeout | BySendError | ByShutdown

  datatype Outcome = Answered | Rejected

  datatype Phase = Recording | Sent | Unrecorded

  /** `settling`: a response has claimed the command and its row is being updated. */
  datatype Command = Command(chargePoint: nat, phase: Phase, claim: Option<Claim>, settling: bool, outcome: Option<Outcome>)

  datatype State = State(commands: map<nat, Command>, pending: map<nat, nat>, timers: set<nat>)

  const EMPTY := State(map[], map[], {})

  datatype Event =
    | Create(uid: nat, chargePoint: nat)            // the message row is being written
    | Record(uid: nat, ok: bool)                    // it is written: register and send
    | Response(uid: nat, from: nat)
    | Settle(uid: nat, ok: bool, result: bool)      // the row update of a response ends
    | Timeout(uid: nat)
    | SendFails(uid: nat)                           // the send callback reports an error
    | Shutdown

  /** The promise settles once. */
  function Settled(command: Command, outcome: Outcome): Command {
    if command.outcome.Some? then command else command.(outcome := Some(outcome))
  }

  function To(s: State, uid: nat, command: Command): State {
    s.(commands := s.commands[uid := command])
  }

  /** Leave the pending map and stop the timer. */
  function Unregistered(s: State, uid: nat): State {
    s.(pending := s.pending - {uid}, timers := s.timers - {uid})
  }

  function RecordStep(s: State, uid: nat, ok: bool): State {
    if uid in s.commands && s.commands[uid].phase.Recording? then
      var command := s.commands[uid];
      if ok then To(s, uid, command.(phase := Sent)).(pending := s.pending[uid := command.chargePoint], timers := s.timers + {uid})
      else To(s, uid, Settled(command.(phase := Unrecorded), Rejected))
    else s
  }

  function ResponseStep(s: State, uid: nat, from: nat): State {
    if uid in s.pending && s.pending[uid] == from && uid in s.commands then
      Unregistered(To(s, uid, s.commands[uid].(claim := Some(ByResponse), settling := true)), uid)
    else s
  }

  function SettleStep(s: State, uid: nat, ok: bool, result: bool): State {
    if uid in s.commands && s.commands[uid].settling then
      var command := s.commands[uid].(settling := false);
      To(s, uid, if ok then Settled(command, if result then Answered else Rejected) else command)
    else s
  }

  function TimeoutStep(s: State, uid: nat): State {
    if uid in s.timers && uid in s.commands then
      Unregistered(To(s, uid, Settled(s.commands[uid].(claim := Some(ByTimeout)), Rejected)), uid)
    else s
  }

  function SendFailsStep(s: State, uid: nat): State {
    if uid in s.commands && s.commands[uid].phase.Sent? then
      var command := if uid in s.pending then s.commands[uid].(claim := Some(BySendError)) else s.commands[uid];
      Unregistered(To(s, uid, Settled(command, Rejected)), uid)
    else s
  }

  function ShutdownStep(s: State): State {
    s.(commands := map uid | uid in s.commands ::
         if uid in s.pending then Settled(s.commands[uid].(claim := Some(ByShutdown)), Rejected) else s.commands[uid],
       pending := map[], timers := s.timers - s.pending.Keys)
  }

  function Next(s: State, e: Event): State {
    match e
    case Create(uid, chargePoint) =>
      if uid in s.commands then s else To(s, uid, Command(chargePoint, Recording, None, false, None))
    case Record(uid, ok) => RecordStep(s, uid, ok)
    case Response(uid, from) => ResponseStep(s, uid, from)
    case Settle(uid, ok, result) => SettleStep(s, uid, ok, result)
    case Timeout(uid) => TimeoutStep(s, uid)
    case SendFails(uid) => SendFailsStep(s, uid)
    case Shutdown => ShutdownStep(s)
  }

  function Run(s: State, events: seq<Event>): State {
    if events == [] then s else Next(Run(s, events[..|events| - 1]), events[|events| - 1])
  }

  // ---------------------------------------------------------------- one claim a command

  predicate Fits(s: State, uid: nat) {
    && (uid in s.timers <==> uid in s.pending)
    && (uid in s.pending <==> uid in s.commands && s.commands[uid].phase.Sent? && s.commands[uid].claim.None?)
    && (uid in s.pending ==> s.pending[uid] == s.commands[uid].chargePoint && s.commands[uid].outcome.None?)
    && (uid in s.commands ==>
          var command := s.commands[uid];
          && (command.claim.Some? ==> command.phase.Sent?)
          && (command.settling ==> command.claim == Some(ByResponse))
          && (command.phase.Recording? ==> command.outcome.None?)
          && (command.phase.Unrecorded? ==> command.outcome == Some(Rejected))
          && (command.claim.Some? && command.claim != Some(ByResponse) ==> command.outcome == Some(Rejected)))
  }

  ghost predicate Inv(s: State) {
    forall uid :: Fits(s, uid)
  }

  lemma NextKeepsInv(s: State, e: Event)
    requires Inv(s)
    ensures Inv(Next(s, e))
  {
    forall uid ensures Fits(Next(s, e), uid) {
      assert Fits(s, uid);
    }
  }

  /**
    Settlement: after any run, a command has a live timer exactly while it is pending, and it is
    pending exactly while it was sent and nothing has claimed it.
   */
  lemma {:induction false} TimerIffPendingIffUnclaimed(events: seq<Event>)
    ensures
      var s := Run(EMPTY, events);
      && Inv(s)
      && (forall uid :: uid in s.timers <==> uid in s.pending)
      && (forall uid :: uid in s.pending <==> uid in s.commands && s.commands[uid].phase.Sent? && s.commands[uid].claim.None?)
  {
    if events != [] {
      TimerIffPendingIffUnclaimed(events[..|events| - 1]);
      NextKeepsInv(Run(EMPTY, events[..|events| - 1]), events[|events| - 1]);
    }
    var s := Run(EMPTY, events);
    forall uid
      ensures uid in s.timers <==> uid in s.pending
      ensures uid in s.pending <==> uid in s.commands && s.commands[uid].phase.Sent? && s.commands[uid].claim.None?
    {
      assert Fits(s, uid);
    }
  }

  lemma StepKeepsClaim(s: State, e: Event, uid: nat)
    requires Inv(s) && uid in s.commands
    ensures uid in Next(s, e).commands
    ensures s.commands[uid].claim.Some? ==> Next(s, e).commands[uid].claim == s.commands[uid].claim
    ensures s.commands[uid].outcome.Some? ==> Next(s, e).commands[uid].outcome == s.commands[uid].outcome
  {
    assert Fits(s, uid);
  }

  /** Exactly one claim: what claimed a command, and what its caller was told, never change again. */
  lemma {:induction false} ClaimsAreFinal(s: State, events: seq<Event>, uid: nat)
    requires Inv(s) && uid in s.commands
    ensures Inv(Run(s, events)) && uid in Run(s, events).commands
    ensures s.commands[uid].claim.Some? ==> Run(s, events).commands[uid].claim == s.commands[uid].claim
    ensures s.commands[uid].outcome.Some? ==> Run(s, events).commands[uid].outcome == s.commands[uid].outcome
  {
    if events != [] {
      ClaimsAreFinal(s, events[..|events| - 1], uid);
      NextKeepsInv(Run(s, events[..|events| - 1]), events[|events| - 1]);
      StepKeepsClaim(Run(s, events[..|events| - 1]), events[|events| - 1], uid);
    }
  }

  /** A response frame does something exactly when it names a pending command of the same charge point. */
  lemma OnlyTheOwnChargePointAnswers(s: State, uid: nat, from: nat)
    requires Inv(s)
    ensures Next(s, Response(uid, from)) != s
            <==> uid in s.commands && s.commands[uid].phase.Sent? && s.commands[uid].claim.None?
                 && s.commands[uid].chargePoint == from
    ensures forall other :: other != uid && other in s.commands ==>
              other in Next(s, Response(uid, from)).commands &&
              Next(s, Response(uid, from)).commands[other] == s.commands[other]
  {
    assert Fits(s, uid);
    if uid in s.pending && s.pending[uid] == from {
      assert uid !in Next(s, Response(uid, from)).pending;
    }
  }

  /** The row update of the command's response has failed, and the socket has reported no send error since. */
  predicate Stranded(events: seq<Event>, uid: nat) {
    events != [] &&
      var front, e := events[..|events| - 1], events[|events| - 1];
      if e.Settle? && e.uid == uid && !e.ok && AwaitsUpdate(Run(EMPTY, front), uid) then true
      else e != SendFails(uid) && Stranded(front, uid)
  }

  predicate AwaitsUpdate(s: State, uid: nat) {
    uid in s.commands && s.commands[uid].settling && s.commands[uid].outcome.None?
  }

  /** Answered by the charge point, done with the update, and the caller was told nothing. */
  predicate LeftAlone(s: State, uid: nat) {
    && uid in s.commands && s.commands[uid].claim == Some(ByResponse)
    && !s.commands[uid].settling && s.commands[uid].outcome.None?
  }

  lemma StepLeavesAloneIff(s: State, e: Event, uid: nat)
    requires Inv(s)
    ensures LeftAlone(Next(s, e), uid) <==>
      (e.Settle? && e.uid == uid && !e.ok && AwaitsUpdate(s, uid)) || (e != SendFails(uid) && LeftAlone(s, uid))
  {
    assert Fits(s, uid);
  }

  lemma {:induction false} StrandedIsLeftAlone(events: seq<Event>, uid: nat)
    ensures Stranded(events, uid) <==> LeftAlone(Run(EMPTY, events), uid)
  {
    if events != [] {
      var front, e := events[..|events| - 1], events[|events| - 1];
      StrandedIsLeftAlone(front, uid);
      TimerIffPendingIffUnclaimed(front);
      StepLeavesAloneIff(Run(EMPTY, front), e, uid);
    }
  }

  /**
    In every run a claimed command whose response is not being stored has told its caller, except exactly
    when the row update of its response failed and no send error followed. Its timer is gone by then.
   */
  lemma CallersAreToldUnlessStranded(events: seq<Event>, uid: nat)
    requires
      var s := Run(EMPTY, events);
      uid in s.commands && s.commands[uid].claim.Some? && !s.commands[uid].settling
    ensures Run(EMPTY, events).commands[uid].outcome.None? <==> Stranded(events, uid)
    ensures uid !in Run(EMPTY, events).timers
  {
    TimerIffPendingIffUnclaimed(events);
    StrandedIsLeftAlone(events, uid);
    assert Fits(Run(EMPTY, events), uid);
  }

  /** Four steps from nothing strand a caller. */
  lemma FailedUpdateStrandsTheCaller(uid: nat, chargePoint: nat)
    ensures
      var events := [Create(uid, chargePoint), Record(uid, true), Response(uid, chargePoint), Settle(uid, false, true)];
      Stranded(events, uid) && LeftAlone(Run(EMPTY, events), uid)
  {
    var events := [Create(uid, chargePoint), Record(uid, true), Response(uid, chargePoint), Settle(uid, false, true)];
    var sent := RecordStep(Run(EMPTY, events[..1]), uid, true);
    assert events[..1][..0] == [] && events[..2][..1] == events[..1] && events[..3][..2] == events[..2];
    assert uid in Run(EMPTY, events[..1]).commands;
    assert Run(EMPTY, events[..2]) == sent && sent.pending[uid] == chargePoint;
    assert AwaitsUpdate(Run(EMPTY, events[..3]), uid);
    StrandedIsLeftAlone(events, uid);
  }

  // ---------------------------------------------------------------- who is told what

  /** What a step tells the caller of a command that has been told nothing yet. */
  function Tells(s: State, e: Event, uid: nat): Option<Outcome> {
    if uid !in s.commands || s.commands[uid].outcome.Some? then None
    else
      var command := s.commands[uid];
      match e
      case Record(u, ok) => if u == uid && !ok && command.phase.Recording? then Some(Rejected) else None
      case Settle(u, ok, result) =>
        if u == uid && ok && command.settling then Some(if result then Answered else Rejected) else None
      case Timeout(u) => if u == uid && Open(command) then Some(Rejected) else None
      case SendFails(u) => if u == uid && command.phase.Sent? then Some(Rejected) else None
      case Shutdown => if Open(command) then Some(Rejected) else None
      case _ => None
  }

  /** Sent, and nothing has claimed it. */
  predicate Open(command: Command) {
    command.phase.Sent? && command.claim.None?
  }

  /** What a step claims an open command by. */
  function Claims(e: Event, uid: nat, chargePoint: nat): Option<Claim> {
    match e
    case Response(u, from) => if u == uid && from == chargePoint then Some(ByResponse) else None
    case Timeout(u) => if u == uid then Some(ByTimeout) else None
    case SendFails(u) => if u == uid then Some(BySendError) else None
    case Shutdown => Some(ByShutdown)
    case _ => None
  }

  lemma StepTells(s: State, e: Event, uid: nat)
    requires Inv(s) && uid in s.commands
    ensures uid in Next(s, e).commands
    ensures
      var before, after := s.commands[uid], Next(s, e).commands[uid];
      && after.chargePoint == before.chargePoint
      && after.outcome == (if before.outcome.Some? then before.outcome else Tells(s, e, uid))
      && after.claim == (if Open(before) then Claims(e, uid, before.chargePoint) else before.claim)
  {
    assert Fits(s, uid);
  }

  /** What the steps of a run told the caller of a command, the first of them that told anything. */
  function Told(events: seq<Event>, uid: nat): Option<Outcome> {
    if events == [] then None
    else
      var front, e := events[..|events| - 1], events[|events| - 1];
      if Told(front, uid).Some? then Told(front, uid) else Tells(Run(EMPTY, front), e, uid)
  }

  /**
    In every run a caller is told of an answer if and only if the row of a CALLRESULT of its own charge
    point was updated before anything else settled its command, and is rejected if and only if its row
    was not written, a CALLERROR came, the timer fired, the socket failed or the server shut down first.
   */
  lemma {:induction false} CallersAreToldAsItWent(events: seq<Event>, uid: nat)
    ensures uid in Run(EMPTY, events).commands ==> Run(EMPTY, events).commands[uid].outcome == Told(events, uid)
    ensures uid !in Run(EMPTY, events).commands ==> Told(events, uid) == None
  {
    if events != [] {
      var front, e := events[..|events| - 1], events[|events| - 1];
      CallersAreToldAsItWent(front, uid);
      TimerIffPendingIffUnclaimed(front);
      if uid in Run(EMPTY, front).commands {
        StepTells(Run(EMPTY, front), e, uid);
      }
    }
  }

  /** A command whose row is written is pending with its charge point and has a timer. */
  lemma RecordingSends(s: State, uid: nat, chargePoint: nat)
    requires Inv(s) && uid !in s.commands
    ensures
      var sent := Next(Next(s, Create(uid, chargePoint)), Record(uid, true));
      && uid in sent.commands && Open(sent.commands[uid]) && sent.commands[uid].outcome == None
      && uid in sent.pending && sent.pending[uid] == chargePoint && uid in sent.timers
    ensures
      var lost := Next(Next(s, Create(uid, chargePoint)), Record(uid, false));
      && uid in lost.commands && lost.commands[uid].phase == Unrecorded && lost.commands[uid].outcome == Some(Rejected)
      && uid !in lost.pending && uid !in lost.timers
  {
    assert Fits(s, uid);
  }
}
