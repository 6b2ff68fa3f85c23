/**
  Idempotent remote commands (`createCommand` in apps/backend/src/admin/admin-operations.service.ts): look
  the key up, create the command under a unique index, dispatch it, and record how it ended.

  Any number of callers run at once, with any keys and payloads; every await is a place where any other
  step may run and every query may fail. The request hash is the payload itself.
 */
module RemoteCommands {
  /** Tenant and idempotency key. */
  datatype Key = Key(tenant: nat, key: nat)

  datatype Status = QUEUED | SENT | ACCEPTED | FAILED

  /** `creator` is the caller whose transaction created the row. */
  datatype Command = Command(id: nat, payload: nat, status: Status, version: nat, creator: nat)

  datatype Reply = Replied(id: nat) | Conflict | Error

  datatype Phase =
    | Looking          // before the first lookup
    | Creating         // nothing found, before the transaction
    | Clashed          // the insert met the unique index
    | Marking          // created, before the update to SENT
    | Dispatching      // before the charging service is called
    | Waiting          // it was called
    | Accepting        // it answered, before the accepting transaction
    | Failing          // something threw, before the failing transaction
    | Done(reply: Reply)

  datatype Caller = Caller(key: Key, payload: nat, phase: Phase)

  datatype Notice = Queued(id: nat) | Accepted(id: nat) | Failed(id: nat)

  datatype State = State(
    commands: map<Key, Command>, callers: map<nat, Caller>, outbox: seq<Notice>, dispatches: multiset<nat>, ids: set<nat>)

  const EMPTY := State(map[], map[], [], multiset{}, {})

  datatype Event =
    | Arrive(caller: nat, key: Key, payload: nat)
    | Lookup(caller: nat, ok: bool)
    | Create(caller: nat, id: nat, ok: bool)
    | Reread(caller: nat, ok: bool)
    | MarkSent(caller: nat, ok: bool)
    | Dispatch(caller: nat)
    | Answer(caller: nat, ok: bool)
    | Accept(caller: nat, ok: bool)
    | Fail(caller: nat, ok: bool)

  predicate At(s: State, x: nat, phase: Phase) {
    x in s.callers && s.callers[x].phase == phase
  }

  function To(s: State, x: nat, phase: Phase): State
    requires x in s.callers
  {
    s.(callers := s.callers[x := s.callers[x].(phase := phase)])
  }

  /** The answer to a caller that finds a command under its key. */
  function ReplayOf(command: Command, payload: nat): Reply {
    if command.payload != payload then Conflict else Replied(command.id)
  }

  function LookupStep(s: State, x: nat, ok: bool): State {
    if At(s, x, Looking) then
      var key := s.callers[x].key;
      if !ok then To(s, x, Done(Error))
      else if key in s.commands then To(s, x, Done(ReplayOf(s.commands[key], s.callers[x].payload)))
      else To(s, x, Creating)
    else s
  }

  function CreateStep(s: State, x: nat, id: nat, ok: bool): State {
    if At(s, x, Creating) && id !in s.ids then
      var key := s.callers[x].key;
      if !ok then To(s, x, Done(Error))
      else if key in s.commands then To(s, x, Clashed)
      else To(s, x, Marking).(
        commands := s.commands[key := Command(id, s.callers[x].payload, QUEUED, 1, x)],
        outbox := s.outbox + [Queued(id)], ids := s.ids + {id})
    else s
  }

  function RereadStep(s: State, x: nat, ok: bool): State {
    if At(s, x, Clashed) then
      var key := s.callers[x].key;
      if !ok || key !in s.commands then To(s, x, Done(Error))
      else To(s, x, Done(ReplayOf(s.commands[key], s.callers[x].payload)))
    else s
  }

  function Stored(s: State, key: Key, status: Status, version: nat): State
    requires key in s.commands
  {
    s.(commands := s.commands[key := s.commands[key].(status := status, version := version)])
  }

  function MarkSentStep(s: State, x: nat, ok: bool): State {
    if At(s, x, Marking) && s.callers[x].key in s.commands then
      var key := s.callers[x].key;
      if ok then Stored(To(s, x, Dispatching), key, SENT, s.commands[key].version) else To(s, x, Failing)
    else s
  }

  function DispatchStep(s: State, x: nat): State {
    if At(s, x, Dispatching) && s.callers[x].key in s.commands then
      To(s, x, Waiting).(dispatches := s.dispatches + multiset{s.commands[s.callers[x].key].id})
    else s
  }

  function AnswerStep(s: State, x: nat, ok: bool): State {
    if At(s, x, Waiting) then To(s, x, if ok then Accepting else Failing) else s
  }

  function AcceptStep(s: State, x: nat, ok: bool): State {
    if At(s, x, Accepting) && s.callers[x].key in s.commands then
      var command := s.commands[s.callers[x].key];
      if ok then Stored(To(s, x, Done(Replied(command.id))), s.callers[x].key, ACCEPTED, command.version + 1).(
                   outbox := s.outbox + [Accepted(command.id)])
      else To(s, x, Failing)
    else s
  }

  function FailStep(s: State, x: nat, ok: bool): State {
    if At(s, x, Failing) && s.callers[x].key in s.commands then
      var command := s.commands[s.callers[x].key];
      if ok then Stored(To(s, x, Done(Error)), s.callers[x].key, FAILED, command.version + 1).(
                   outbox := s.outbox + [Failed(command.id)])
      else To(s, x, Done(Error))
    else s
  }

  function Next(s: State, e: Event): State {
    match e
    case Arrive(x, key, payload) =>
      if x in s.callers then s else s.(callers := s.callers[x := Caller(key, payload, Looking)])
    case Lookup(x, ok) => LookupStep(s, x, ok)
    case Create(x, id, ok) => CreateStep(s, x, id, ok)
    case Reread(x, ok) => RereadStep(s, x, ok)
    case MarkSent(x, ok) => MarkSentStep(s, x, ok)
    case Dispatch(x) => DispatchStep(s, x)
    case Answer(x, ok) => AnswerStep(s, x, ok)
    case Accept(x, ok) => AcceptStep(s, x, ok)
    case Fail(x, ok) => FailStep(s, x, ok)
  }

  function Run(s: State, events: seq<Event>): State {
    if events == [] then s else Next(Run(s, events[..|events| - 1]), events[|events| - 1])
  }

  // ---------------------------------------------------------------- the outbox of one command

  function StreamOf(outbox: seq<Notice>, id: nat): seq<Notice> {
    if outbox == [] then []
    else
      var last := outbox[|outbox| - 1];
      StreamOf(outbox[..|outbox| - 1], id) + (if last.id == id then [last] else [])
  }

  lemma StreamAppend(outbox: seq<Notice>, notice: Notice, id: nat)
    ensures StreamOf(outbox + [notice], id) == StreamOf(outbox, id) + (if notice.id == id then [notice] else [])
  {
  }

  /** Queued first, then at most one ending, the one the status names. */
  function StoryOf(command: Command): seq<Notice> {
    match command.status
    case QUEUED => [Queued(command.id)]
    case SENT => [Queued(command.id)]
    case ACCEPTED => [Queued(command.id), Accepted(command.id)]
    case FAILED => [Queued(command.id), Failed(command.id)]
  }

  // ---------------------------------------------------------------- the invariant

  /** A caller that created the command under its key and is still at work on it. */
  predicate Working(phase: Phase) {
    phase.Marking? || phase.Dispatching? || phase.Waiting? || phase.Accepting? || phase.Failing?
  }

  /** How often a creator's command has been dispatched, and the status its row can have. */
  predicate Fits(phase: Phase, status: Status, dispatched: nat) {
    match phase
    case Marking => status == QUEUED && dispatched == 0
    case Dispatching => status == SENT && dispatched == 0
    case Waiting => status == SENT && dispatched == 1
    case Accepting => status == SENT && dispatched == 1
    case Failing => (status == QUEUED || status == SENT) && dispatched <= 1
    case Done(reply) => if reply.Error? then status != ACCEPTED && dispatched <= 1 else reply.Replied? && status == ACCEPTED && dispatched == 1
    case _ => false
  }

  predicate CallerFits(s: State, x: nat)
    requires x in s.callers
  {
    var caller := s.callers[x];
    && (Working(caller.phase) ==>
          && caller.key in s.commands && s.commands[caller.key].creator == x
          && s.commands[caller.key].payload == caller.payload)
    && (caller.phase.Clashed? ==> caller.key in s.commands)
    && (caller.phase.Done? && caller.phase.reply.Replied? ==>
          && caller.key in s.commands && s.commands[caller.key].id == caller.phase.reply.id
          && s.commands[caller.key].payload == caller.payload)
    && (caller.phase.Done? && caller.phase.reply.Conflict? ==>
          caller.key in s.commands && s.commands[caller.key].payload != caller.payload)
  }

  predicate CommandFits(s: State, key: Key)
    requires key in s.commands
  {
    var command := s.commands[key];
    && command.id in s.ids
    && command.creator in s.callers && s.callers[command.creator].key == key
    && Fits(s.callers[command.creator].phase, command.status, s.dispatches[command.id])
    && StreamOf(s.outbox, command.id) == StoryOf(command)
  }

  ghost predicate CallersFit(s: State) {
    forall x :: x in s.callers ==> CallerFits(s, x)
  }

  ghost predicate CommandsFit(s: State) {
    forall key :: key in s.commands ==> CommandFits(s, key)
  }

  ghost predicate IdsApart(s: State) {
    && (forall a, b :: a in s.commands && b in s.commands && a != b ==> s.commands[a].id != s.commands[b].id)
    && (forall id :: id !in s.ids ==> s.dispatches[id] == 0 && StreamOf(s.outbox, id) == [])
  }

  ghost predicate Inv(s: State) {
    CallersFit(s) && CommandsFit(s) && IdsApart(s)
  }

  predicate OwnsNothing(phase: Phase) {
    phase.Looking? || phase.Creating? || phase.Clashed?
  }

  /** A caller that created no command moves on without creating one. */
  lemma MovingKeeps(s: State, x: nat, phase: Phase)
    requires Inv(s) && x in s.callers && OwnsNothing(s.callers[x].phase) && !Working(phase)
    requires CallerFits(To(s, x, phase), x)
    ensures Inv(To(s, x, phase))
  {
  }

  lemma ArriveKeeps(s: State, x: nat, key: Key, payload: nat)
    requires Inv(s) && x !in s.callers
    ensures Inv(s.(callers := s.callers[x := Caller(key, payload, Looking)]))
  {
  }

  /** The creating transaction goes through. */
  predicate Creates(s: State, x: nat, id: nat) {
    At(s, x, Creating) && id !in s.ids && s.callers[x].key !in s.commands
  }

  lemma CreatedCommandsFit(s: State, x: nat, id: nat)
    requires Inv(s) && Creates(s, x, id)
    ensures CommandsFit(CreateStep(s, x, id, true))
  {
  }

  lemma CreatedCallersFit(s: State, x: nat, id: nat)
    requires CallersFit(s) && Creates(s, x, id)
    ensures CallersFit(CreateStep(s, x, id, true))
  {
  }

  lemma CreatedIdsApart(s: State, x: nat, id: nat)
    requires CommandsFit(s) && IdsApart(s) && Creates(s, x, id)
    ensures IdsApart(CreateStep(s, x, id, true))
  {
  }

  lemma CreatedKeeps(s: State, x: nat, id: nat)
    requires Inv(s) && Creates(s, x, id)
    ensures Inv(CreateStep(s, x, id, true))
  {
    CreatedCommandsFit(s, x, id);
    CreatedCallersFit(s, x, id);
    CreatedIdsApart(s, x, id);
  }

  /** What a step of the creator leaves alone: everything but its own phase and its own command's ending. */
  ghost predicate WorksOn(s: State, next: State, x: nat, key: Key) {
    && x in s.callers && key in s.commands && s.callers[x].key == key && s.commands[key].creator == x
    && (next.callers.Keys == s.callers.Keys && forall y :: y in s.callers && y != x ==> next.callers[y] == s.callers[y])
    && x in next.callers && next.callers[x] == s.callers[x].(phase := next.callers[x].phase)
    && next.commands.Keys == s.commands.Keys
    && (forall k :: k in s.commands && k != key ==> next.commands[k] == s.commands[k])
    && next.commands[key] == s.commands[key].(status := next.commands[key].status, version := next.commands[key].version)
    && (forall id :: id != s.commands[key].id ==>
          next.dispatches[id] == s.dispatches[id] && StreamOf(next.outbox, id) == StreamOf(s.outbox, id))
    && next.ids == s.ids
  }

  lemma WorkKeeps(s: State, next: State, x: nat, key: Key)
    requires Inv(s) && WorksOn(s, next, x, key)
    requires CommandFits(next, key) && CallerFits(next, x)
    ensures Inv(next)
  {
    forall k | k in next.commands ensures CommandFits(next, k) {
      assert CommandFits(s, k);
      if k != key {
        assert s.commands[k].creator != x;
      }
    }
    forall y | y in next.callers ensures CallerFits(next, y) {
      assert CallerFits(s, y);
    }
    assert CommandFits(s, key);
  }

  lemma MarkSentKeeps(s: State, x: nat, ok: bool)
    requires Inv(s)
    ensures Inv(MarkSentStep(s, x, ok))
  {
    if At(s, x, Marking) && s.callers[x].key in s.commands {
      assert CallerFits(s, x) && CommandFits(s, s.callers[x].key);
      WorkKeeps(s, MarkSentStep(s, x, ok), x, s.callers[x].key);
    }
  }

  lemma DispatchKeeps(s: State, x: nat)
    requires Inv(s)
    ensures Inv(DispatchStep(s, x))
  {
    if At(s, x, Dispatching) && s.callers[x].key in s.commands {
      assert CallerFits(s, x) && CommandFits(s, s.callers[x].key);
      WorkKeeps(s, DispatchStep(s, x), x, s.callers[x].key);
    }
  }

  lemma AnswerKeeps(s: State, x: nat, ok: bool)
    requires Inv(s)
    ensures Inv(AnswerStep(s, x, ok))
  {
    if At(s, x, Waiting) {
      assert CallerFits(s, x) && CommandFits(s, s.callers[x].key);
      WorkKeeps(s, AnswerStep(s, x, ok), x, s.callers[x].key);
    }
  }

  /** A creator's last transaction: the status, the next version and one notice. */
  function Ended(s: State, x: nat, notice: Notice, status: Status, reply: Reply): State
    requires x in s.callers && s.callers[x].key in s.commands
  {
    var key := s.callers[x].key;
    Stored(To(s, x, Done(reply)), key, status, s.commands[key].version + 1).(outbox := s.outbox + [notice])
  }

  lemma EndingWorks(s: State, x: nat, notice: Notice, status: Status, reply: Reply)
    requires Inv(s) && x in s.callers && Working(s.callers[x].phase)
    requires s.callers[x].key in s.commands && notice.id == s.commands[s.callers[x].key].id
    ensures WorksOn(s, Ended(s, x, notice, status, reply), x, s.callers[x].key)
    ensures StreamOf(Ended(s, x, notice, status, reply).outbox, notice.id) == StreamOf(s.outbox, notice.id) + [notice]
  {
    assert CallerFits(s, x);
    StreamAppend(s.outbox, notice, notice.id);
    forall id ensures id != notice.id ==> StreamOf(s.outbox + [notice], id) == StreamOf(s.outbox, id) {
      StreamAppend(s.outbox, notice, id);
    }
  }

  /** The two endings a creator can write. */
  predicate MayEnd(phase: Phase, notice: Notice, status: Status, reply: Reply) {
    || (phase.Accepting? && notice.Accepted? && status == ACCEPTED && reply == Replied(notice.id))
    || (phase.Failing? && notice.Failed? && status == FAILED && reply == Error)
  }

  lemma EndedFits(s: State, x: nat, notice: Notice, status: Status, reply: Reply)
    requires x in s.callers && s.callers[x].key in s.commands && notice.id == s.commands[s.callers[x].key].id
    requires CallerFits(s, x) && CommandFits(s, s.callers[x].key) && MayEnd(s.callers[x].phase, notice, status, reply)
    requires StreamOf(s.outbox + [notice], notice.id) == StreamOf(s.outbox, notice.id) + [notice]
    ensures CommandFits(Ended(s, x, notice, status, reply), s.callers[x].key)
    ensures CallerFits(Ended(s, x, notice, status, reply), x)
  {
  }

  lemma EndedKeeps(s: State, x: nat, notice: Notice, status: Status, reply: Reply)
    requires Inv(s) && x in s.callers && s.callers[x].key in s.commands && notice.id == s.commands[s.callers[x].key].id
    requires MayEnd(s.callers[x].phase, notice, status, reply)
    ensures Inv(Ended(s, x, notice, status, reply))
  {
    EndingWorks(s, x, notice, status, reply);
    EndedFits(s, x, notice, status, reply);
    WorkKeeps(s, Ended(s, x, notice, status, reply), x, s.callers[x].key);
  }

  /** A creator gives up on one transaction: only its phase moves. */
  lemma GivingUpKeeps(s: State, x: nat, phase: Phase)
    requires Inv(s) && x in s.callers
    requires (s.callers[x].phase.Accepting? && phase.Failing?) || (s.callers[x].phase.Failing? && phase == Done(Error))
    ensures Inv(To(s, x, phase))
  {
    assert CallerFits(s, x) && CommandFits(s, s.callers[x].key);
    WorkKeeps(s, To(s, x, phase), x, s.callers[x].key);
  }

  lemma AcceptKeeps(s: State, x: nat, ok: bool)
    requires Inv(s)
    ensures Inv(AcceptStep(s, x, ok))
  {
    if At(s, x, Accepting) && s.callers[x].key in s.commands {
      var id := s.commands[s.callers[x].key].id;
      if ok {
        EndedKeeps(s, x, Accepted(id), ACCEPTED, Replied(id));
      } else {
        GivingUpKeeps(s, x, Failing);
      }
    }
  }

  lemma FailKeeps(s: State, x: nat, ok: bool)
    requires Inv(s)
    ensures Inv(FailStep(s, x, ok))
  {
    if At(s, x, Failing) && s.callers[x].key in s.commands {
      if ok {
        EndedKeeps(s, x, Failed(s.commands[s.callers[x].key].id), FAILED, Error);
      } else {
        GivingUpKeeps(s, x, Done(Error));
      }
    }
  }

  lemma LookingKeeps(s: State, x: nat, id: nat, ok: bool)
    requires Inv(s)
    ensures Inv(LookupStep(s, x, ok)) && Inv(RereadStep(s, x, ok))
  {
    if At(s, x, Looking) {
      MovingKeeps(s, x, LookupStep(s, x, ok).callers[x].phase);
    } else if At(s, x, Clashed) {
      MovingKeeps(s, x, RereadStep(s, x, ok).callers[x].phase);
    }
  }

  lemma CreateKeeps(s: State, x: nat, id: nat, ok: bool)
    requires Inv(s)
    ensures Inv(CreateStep(s, x, id, ok))
  {
    if At(s, x, Creating) && id !in s.ids {
      if ok && s.callers[x].key !in s.commands {
        CreatedKeeps(s, x, id);
      } else {
        MovingKeeps(s, x, CreateStep(s, x, id, ok).callers[x].phase);
      }
    }
  }

  lemma NextKeepsInv(s: State, e: Event)
    requires Inv(s)
    ensures Inv(Next(s, e))
  {
    match e
    case Arrive(x, key, payload) => if x !in s.callers { ArriveKeeps(s, x, key, payload); }
    case Lookup(x, ok) => LookingKeeps(s, x, 0, ok);
    case Create(x, id, ok) => CreateKeeps(s, x, id, ok);
    case Reread(x, ok) => LookingKeeps(s, x, 0, ok);
    case MarkSent(x, ok) => MarkSentKeeps(s, x, ok);
    case Dispatch(x) => DispatchKeeps(s, x);
    case Answer(x, ok) => AnswerKeeps(s, x, ok);
    case Accept(x, ok) => AcceptKeeps(s, x, ok);
    case Fail(x, ok) => FailKeeps(s, x, ok);
  }

  lemma {:induction false} InvHolds(events: seq<Event>)
    ensures Inv(Run(EMPTY, events))
  {
    if events != [] {
      InvHolds(events[..|events| - 1]);
      NextKeepsInv(Run(EMPTY, events[..|events| - 1]), events[|events| - 1]);
    }
  }

  // ---------------------------------------------------------------- the protocol

  /**
    In every run each command is dispatched at most once, by the caller that created it, and its outbox
    stream is Queued followed by at most one of Accepted and Failed, exactly as its status says.
   */
  lemma CommandsRunOnce(events: seq<Event>, key: Key)
    requires key in Run(EMPTY, events).commands
    ensures
      var s := Run(EMPTY, events);
      var command := s.commands[key];
      && s.dispatches[command.id] <= 1
      && StreamOf(s.outbox, command.id) == StoryOf(command)
      && (command.status == ACCEPTED ==> s.dispatches[command.id] == 1)
  {
    InvHolds(events);
    assert CommandFits(Run(EMPTY, events), key);
  }

  predicate SameCommand(before: Command, after: Command) {
    after == before.(status := after.status, version := after.version)
  }

  lemma StepKeepsCommand(s: State, e: Event, key: Key)
    requires key in s.commands
    ensures key in Next(s, e).commands && SameCommand(s.commands[key], Next(s, e).commands[key])
  {
  }

  /** A key never gets a second command: whatever row it has once, it keeps, with id, payload and creator. */
  lemma {:induction false} OneCommandAKey(s: State, events: seq<Event>, key: Key)
    requires key in s.commands
    ensures key in Run(s, events).commands && SameCommand(s.commands[key], Run(s, events).commands[key])
  {
    if events != [] {
      OneCommandAKey(s, events[..|events| - 1], key);
      StepKeepsCommand(Run(s, events[..|events| - 1]), events[|events| - 1], key);
    }
  }

  /**
    Two callers on one key that are both answered without an error: with equal payloads they are
    answered the same, with different payloads at least one of them gets a conflict; and a caller is
    given a command exactly when its payload is that command's.
   */
  lemma EqualPayloadsShareTheCommand(events: seq<Event>, a: nat, b: nat)
    requires
      var s := Run(EMPTY, events);
      && a in s.callers && b in s.callers && s.callers[a].key == s.callers[b].key
      && s.callers[a].phase.Done? && s.callers[b].phase.Done?
      && !s.callers[a].phase.reply.Error? && !s.callers[b].phase.reply.Error?
    ensures
      var s := Run(EMPTY, events);
      var key, first, second := s.callers[a].key, s.callers[a].phase.reply, s.callers[b].phase.reply;
      && key in s.commands
      && (first == Replied(s.commands[key].id) <==> s.callers[a].payload == s.commands[key].payload)
      && (s.callers[a].payload == s.callers[b].payload ==> first == second)
      && (s.callers[a].payload != s.callers[b].payload ==> first == Conflict || second == Conflict)
  {
    InvHolds(events);
    assert CallerFits(Run(EMPTY, events), a) && CallerFits(Run(EMPTY, events), b);
  }

  predicate QueriesSucceed(events: seq<Event>) {
    forall i :: 0 <= i < |events| && (events[i].Lookup? || events[i].Create? || events[i].Reread?) ==> events[i].ok
  }

  lemma OnlyFailuresMakeErrors(s: State, e: Event, x: nat)
    requires x in Next(s, e).callers && Next(s, e).callers[x].phase == Done(Error)
    requires e.Lookup? || e.Create? || e.Reread? ==> e.ok
    ensures x in s.callers && s.callers[x].key == Next(s, e).callers[x].key
    ensures s.callers[x].phase == Done(Error) || s.callers[x].phase.Failing?
            || (s.callers[x].phase.Clashed? && s.callers[x].key !in s.commands)
  {
  }

  lemma StepErrors(s: State, e: Event, x: nat)
    requires Inv(s) && x in Next(s, e).callers && Next(s, e).callers[x].phase == Done(Error)
    requires e.Lookup? || e.Create? || e.Reread? ==> e.ok
    requires x in s.callers ==> s.callers[x].phase == Done(Error) ==>
      s.callers[x].key in s.commands && s.commands[s.callers[x].key].creator == x
    ensures
      var next := Next(s, e);
      next.callers[x].key in next.commands && next.commands[next.callers[x].key].creator == x
  {
    OnlyFailuresMakeErrors(s, e, x);
    assert CallerFits(s, x);
    StepKeepsCommand(s, e, s.callers[x].key);
  }

  /** With queries that succeed, an error reaches nobody but the creator whose own dispatch or bookkeeping failed. */
  lemma {:induction false} OnlyCreatorsSeeErrors(events: seq<Event>, x: nat)
    requires QueriesSucceed(events)
    requires x in Run(EMPTY, events).callers && Run(EMPTY, events).callers[x].phase == Done(Error)
    ensures
      var s := Run(EMPTY, events);
      s.callers[x].key in s.commands && s.commands[s.callers[x].key].creator == x
  {
    if events != [] {
      var front, e := events[..|events| - 1], events[|events| - 1];
      assert e == events[|events| - 1];
      InvHolds(front);
      if x in Run(EMPTY, front).callers && Run(EMPTY, front).callers[x].phase == Done(Error) {
        OnlyCreatorsSeeErrors(front, x);
      }
      StepErrors(Run(EMPTY, front), e, x);
    }
  }
}

/** The command table as the service updates it, one method from one await to the next. */
module AdminOperationsModel {
  import R = RemoteCommands

  /** What the invariant says of a caller that works on the command it created. */
  lemma CreatorsCommand(s: R.State, x: nat)
    requires R.Inv(s) && x in s.callers && R.Working(s.callers[x].phase)
    ensures s.callers[x].key in s.commands
    ensures
      var command := s.commands[s.callers[x].key];
      && command.creator == x && command.payload == s.callers[x].payload
      && R.Fits(s.callers[x].phase, command.status, s.dispatches[command.id])
  {
    assert R.CallerFits(s, x);
    assert R.CommandFits(s, s.callers[x].key);
  }

  /** The stream of a command ends with its one ending notice. */
  lemma StoryEnds(s: R.State, x: nat)
    requires R.Inv(s) && x in s.callers && s.callers[x].key in s.commands
    ensures R.StreamOf(s.outbox, s.commands[s.callers[x].key].id) == R.StoryOf(s.commands[s.callers[x].key])
  {
    assert R.CommandFits(s, s.callers[x].key);
  }

  lemma CreationIsQueued(s: R.State, x: nat, id: nat, ok: bool)
    requires R.Inv(s) && R.At(s, x, R.Creating) && id !in s.ids
    ensures
      var after := R.CreateStep(s, x, id, ok);
      && x in after.callers && after.callers[x].key == s.callers[x].key
      && (after.callers[x].phase.Marking? ==>
            && s.callers[x].key in after.commands && after.commands[s.callers[x].key].id == id
            && R.StreamOf(after.outbox, id) == [R.Queued(id)])
  {
    var after := R.CreateStep(s, x, id, ok);
    R.CreateKeeps(s, x, id, ok);
    if after.callers[x].phase.Marking? {
      StoryEnds(after, x);
    }
  }

  lemma AcceptedEnding(s: R.State, x: nat, ok: bool)
    requires R.Inv(s) && R.At(s, x, R.Accepting)
    ensures
      var after := R.AcceptStep(s, x, ok);
      && x in after.callers && after.callers[x].key in after.commands
      && var command := after.commands[after.callers[x].key];
      && after.dispatches[command.id] == 1
      && (ok ==> R.StreamOf(after.outbox, command.id) == [R.Queued(command.id), R.Accepted(command.id)])
  {
    R.AcceptKeeps(s, x, ok);
    CreatorsCommand(s, x);
    StoryEnds(R.AcceptStep(s, x, ok), x);
  }

  lemma FailedEnding(s: R.State, x: nat, ok: bool)
    requires R.Inv(s) && R.At(s, x, R.Failing)
    ensures
      var after := R.FailStep(s, x, ok);
      && x in after.callers && after.callers[x].key in after.commands && after.callers[x].phase == R.Done(R.Error)
      && var id := after.commands[after.callers[x].key].id;
      && R.StreamOf(after.outbox, id) == if ok then [R.Queued(id), R.Failed(id)] else [R.Queued(id)]
  {
    R.FailKeeps(s, x, ok);
    CreatorsCommand(s, x);
    StoryEnds(R.FailStep(s, x, ok), x);
  }

  class AdminOperationsService {
    var commands: map<R.Key, R.Command>
    var callers: map<nat, R.Caller>
    var outbox: seq<R.Notice>
    ghost var dispatches: multiset<nat>
    ghost var ids: set<nat>

    ghost function State(): R.State
      reads this
    {
      R.State(commands, callers, outbox, dispatches, ids)
    }

    /** Every command has one working creator at most and the outbox story that its status names. */
    ghost predicate Valid()
      reads this
    {
      R.Inv(State())
    }

    /** The outbox stream of the command under a key. */
    ghost function Story(key: R.Key): seq<R.Notice>
      requires key in commands
      reads this
    {
      R.StreamOf(outbox, commands[key].id)
    }

    constructor ()
      ensures Valid() && State() == R.EMPTY
    {
      commands, callers, outbox := map[], map[], [];
      dispatches, ids := multiset{}, {};
    }

    /** The lookup before the transaction: whoever finds a command gets it for an equal payload and a conflict otherwise. */
    method LookUp(x: nat, ok: bool)
      requires Valid() && x in callers && callers[x].phase.Looking?
      modifies this`callers
      ensures Valid() && State() == R.LookupStep(old(State()), x, ok)
      ensures x in callers && callers[x].key == old(callers)[x].key
      ensures ok && callers[x].key in commands ==>
        callers[x].phase.Done? && (callers[x].phase.reply.Replied? <==> commands[callers[x].key].payload == callers[x].payload)
    {
      hide R.Inv;
      R.LookingKeeps(State(), x, 0, ok);
      var caller := callers[x];
      if !ok {
        caller := caller.(phase := R.Done(R.Error));
      } else if caller.key !in commands {
        caller := caller.(phase := R.Creating);
      } else if commands[caller.key].payload != caller.payload {
        caller := caller.(phase := R.Done(R.Conflict));
      } else {
        caller := caller.(phase := R.Done(R.Replied(commands[caller.key].id)));
      }
      callers := callers[x := caller];
    }

    /** The creating transaction: row and outbox notice together, or the unique index. */
    method Create(x: nat, id: nat, ok: bool)
      requires Valid() && x in callers && callers[x].phase.Creating? && id !in ids
      modifies this`callers, this`commands, this`outbox, this`ids
      ensures Valid() && State() == R.CreateStep(old(State()), x, id, ok)
      ensures x in callers && callers[x].key == old(callers)[x].key
      ensures callers[x].phase.Marking? ==>
        && callers[x].key !in old(commands) && callers[x].key in commands
        && Story(callers[x].key) == [R.Queued(id)] && commands[callers[x].key].id == id
      ensures !callers[x].phase.Marking? ==> commands == old(commands) && outbox == old(outbox)
    {
      R.CreateKeeps(State(), x, id, ok);
      CreationIsQueued(State(), x, id, ok);
      hide R.Inv, R.StreamOf;
      var caller := callers[x];
      if !ok {
        callers := callers[x := caller.(phase := R.Done(R.Error))];
      } else if caller.key in commands {
        callers := callers[x := caller.(phase := R.Clashed)];
      } else {
        callers := callers[x := caller.(phase := R.Marking)];
        commands := commands[caller.key := R.Command(id, caller.payload, R.QUEUED, 1, x)];
        outbox := outbox + [R.Queued(id)];
        ids := ids + {id};
      }
      assert State() == R.CreateStep(old(State()), x, id, ok);
      hide R.CreateStep;
    }

    /** `status: SENT`; the command has not been dispatched. */
    method MarkSent(x: nat, ok: bool)
      requires Valid() && x in callers && callers[x].phase.Marking?
      modifies this`callers, this`commands
      ensures Valid() && State() == R.MarkSentStep(old(State()), x, ok)
      ensures x in callers && callers[x].key in commands && commands[callers[x].key].creator == x
      ensures dispatches[commands[callers[x].key].id] == 0
      ensures commands[callers[x].key].status == if ok then R.SENT else R.QUEUED
    {
      hide R.Inv;
      R.MarkSentKeeps(State(), x, ok);
      CreatorsCommand(State(), x);
      var key := callers[x].key;
      if !ok {
        callers := callers[x := callers[x].(phase := R.Failing)];
        return;
      }
      commands := commands[key := commands[key].(status := R.SENT)];
      callers := callers[x := callers[x].(phase := R.Dispatching)];
    }

    /** The accepting transaction, after exactly one dispatch. */
    method Accept(x: nat, ok: bool)
      requires Valid() && x in callers && callers[x].phase.Accepting?
      modifies this`callers, this`commands, this`outbox
      ensures Valid() && State() == R.AcceptStep(old(State()), x, ok)
      ensures x in callers && callers[x].key in commands && dispatches[commands[callers[x].key].id] == 1
      ensures
        var command := commands[callers[x].key];
        ok ==> Story(callers[x].key) == [R.Queued(command.id), R.Accepted(command.id)]
      ensures !ok ==> commands == old(commands) && outbox == old(outbox)
    {
      R.AcceptKeeps(State(), x, ok);
      CreatorsCommand(State(), x);
      hide R.Inv, R.StreamOf;
      if ok {
        var key := callers[x].key;
        var command := commands[key];
        commands := commands[key := command.(status := R.ACCEPTED, version := command.version + 1)];
        outbox := outbox + [R.Accepted(command.id)];
        callers := callers[x := callers[x].(phase := R.Done(R.Replied(command.id)))];
      } else {
        callers := callers[x := callers[x].(phase := R.Failing)];
      }
      AcceptedEnding(old(State()), x, ok);
      assert State() == R.AcceptStep(old(State()), x, ok);
      hide R.AcceptStep;
    }

    /** The failing transaction of the catch block; the caller gets the error either way. */
    method Fail(x: nat, ok: bool)
      requires Valid() && x in callers && callers[x].phase.Failing?
      modifies this`callers, this`commands, this`outbox
      ensures Valid() && State() == R.FailStep(old(State()), x, ok)
      ensures x in callers && callers[x].key in commands && callers[x].phase == R.Done(R.Error)
      ensures
        var command := commands[callers[x].key];
        if ok then Story(callers[x].key) == [R.Queued(command.id), R.Failed(command.id)]
        else Story(callers[x].key) == [R.Queued(command.id)]
    {
      R.FailKeeps(State(), x, ok);
      CreatorsCommand(State(), x);
      hide R.Inv, R.StreamOf;
      if ok {
        var key := callers[x].key;
        var command := commands[key];
        commands := commands[key := command.(status := R.FAILED, version := command.version + 1)];
        outbox := outbox + [R.Failed(command.id)];
      }
      callers := callers[x := callers[x].(phase := R.Done(R.Error))];
      FailedEnding(old(State()), x, ok);
      assert State() == R.FailStep(old(State()), x, ok);
      hide R.FailStep;
    }
  }
}
