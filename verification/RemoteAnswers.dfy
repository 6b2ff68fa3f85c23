/**
  How remote commands end and what their callers are answered (`createCommand` in
  apps/backend/src/admin/admin-operations.service.ts): which events decide it in every run, and whole
  requests with no other step in between.
 */
module RemoteAnswers {
  import opened RemoteCommands

  // ---------------------------------------------------------------- over every run

  /** The charging service took the command of this caller. */
  predicate Agrees(s: State, e: Event, x: nat) {
    e == Answer(x, true) && At(s, x, Waiting)
  }

  /** Marking, dispatching or accepting the command of this caller fails. */
  predicate Trips(s: State, e: Event, x: nat) {
    || (e == MarkSent(x, false) && At(s, x, Marking) && s.callers[x].key in s.commands)
    || (e == Answer(x, false) && At(s, x, Waiting))
    || (e == Accept(x, false) && At(s, x, Accepting) && s.callers[x].key in s.commands)
  }

  ghost predicate HasAgreed(events: seq<Event>, x: nat) {
    events != [] &&
      var front := events[..|events| - 1];
      HasAgreed(front, x) || Agrees(Run(EMPTY, front), events[|events| - 1], x)
  }

  ghost predicate HasTripped(events: seq<Event>, x: nat) {
    events != [] &&
      var front := events[..|events| - 1];
      HasTripped(front, x) || Trips(Run(EMPTY, front), events[|events| - 1], x)
  }

  predicate Created(s: State, x: nat) {
    x in s.callers && s.callers[x].key in s.commands && s.commands[s.callers[x].key].creator == x
  }

  /** Where a caller stands, given what went well and wrong for it. */
  predicate Follows(s: State, x: nat, agreed: bool, tripped: bool) {
    && (At(s, x, Accepting) ==> agreed && !tripped)
    && (Has(s, x, ACCEPTED) ==> agreed && !tripped)
    && (At(s, x, Failing) ==> tripped)
    && (Has(s, x, FAILED) || (Created(s, x) && At(s, x, Done(Error))) ==> tripped)
    && (tripped ==> At(s, x, Failing) || At(s, x, Done(Error)))
    && (agreed && !tripped ==> At(s, x, Accepting) || (x in s.callers && s.callers[x].phase.Done? && s.callers[x].phase.reply.Replied?))
  }

  /** The row a caller created, by status. */
  predicate Has(s: State, x: nat, status: Status) {
    Created(s, x) && s.commands[s.callers[x].key].status == status
  }

  /** Only the creator of a row moves it. */
  lemma RowsMoveByTheirCreator(s: State, e: Event, key: Key)
    requires e.caller in s.callers ==> CallerFits(s, e.caller)
    ensures key in s.commands ==>
      key in Next(s, e).commands && (Next(s, e).commands[key] == s.commands[key] || s.commands[key].creator == e.caller)
    ensures key !in s.commands && key in Next(s, e).commands ==> Next(s, e).commands[key].creator == e.caller
  {
  }

  lemma OthersStay(s: State, e: Event, x: nat)
    requires e.caller != x
    ensures x in s.callers ==> x in Next(s, e).callers && Next(s, e).callers[x] == s.callers[x]
    ensures x !in s.callers ==> x !in Next(s, e).callers
  {
  }

  /** A caller and the row it created are moved by its own steps alone. */
  lemma OthersLeaveAlone(s: State, e: Event, x: nat)
    requires Inv(s) && e.caller != x
    ensures x in s.callers ==> x in Next(s, e).callers && Next(s, e).callers[x] == s.callers[x]
    ensures x !in s.callers ==> x !in Next(s, e).callers
    ensures Has(Next(s, e), x, ACCEPTED) <==> Has(s, x, ACCEPTED)
    ensures Has(Next(s, e), x, FAILED) <==> Has(s, x, FAILED)
    ensures Created(Next(s, e), x) <==> Created(s, x)
  {
    OthersStay(s, e, x);
    if x in s.callers {
      RowsMoveByTheirCreator(s, e, s.callers[x].key);
      StepKeepsCreator(s, e, s.callers[x].key);
    }
    hide Inv, Next, CallerFits;
  }

  lemma StepKeepsCreator(s: State, e: Event, key: Key)
    requires key in s.commands ==> key in Next(s, e).commands
    ensures key in s.commands ==> Next(s, e).commands[key].creator == s.commands[key].creator
  {
    if key in s.commands {
      StepKeepsCommand(s, e, key);
    }
    hide Next;
  }

  lemma OwnStepFollows(s: State, e: Event, x: nat, agreed: bool, tripped: bool)
    requires x in s.callers && CallerFits(s, x) && (s.callers[x].key in s.commands ==> CommandFits(s, s.callers[x].key))
    requires e.caller == x && Follows(s, x, agreed, tripped)
    ensures Follows(Next(s, e), x, agreed || Agrees(s, e, x), tripped || Trips(s, e, x))
  {
    hide StreamOf, StoryOf;
  }

  lemma StepFollows(s: State, e: Event, x: nat, agreed: bool, tripped: bool)
    requires Inv(s) && Follows(s, x, agreed, tripped)
    ensures Follows(Next(s, e), x, agreed || Agrees(s, e, x), tripped || Trips(s, e, x))
  {
    if e.caller != x {
      OthersLeaveAlone(s, e, x);
      hide Next, Inv, Created;
    } else if x in s.callers {
      OwnStepFollows(s, e, x, agreed, tripped);
      hide Follows, Agrees, Trips, Next;
    }
  }

  lemma {:induction false} CallersFollow(events: seq<Event>, x: nat)
    ensures Follows(Run(EMPTY, events), x, HasAgreed(events, x), HasTripped(events, x))
  {
    if events != [] {
      var front := events[..|events| - 1];
      CallersFollow(front, x);
      InvHolds(front);
      StepFollows(Run(EMPTY, front), events[|events| - 1], x, HasAgreed(front, x), HasTripped(front, x));
    }
  }

  /**
    In every run a command is ACCEPTED only if the charging service took it and nothing failed, and is
    then what its creator is answered; it is FAILED only if something failed; and its creator gets an
    error, now or after the failing transaction, if and only if something failed.
   */
  lemma CommandsEndAsTheyWent(events: seq<Event>, key: Key)
    requires key in Run(EMPTY, events).commands
    ensures
      var s := Run(EMPTY, events);
      var command := s.commands[key];
      var x := command.creator;
      && (command.status == ACCEPTED ==> HasAgreed(events, x) && !HasTripped(events, x))
      && (command.status == FAILED ==> HasTripped(events, x))
      && (HasTripped(events, x) <==> At(s, x, Failing) || At(s, x, Done(Error)))
      && (command.status == ACCEPTED <==> At(s, x, Done(Replied(command.id))))
  {
    var s := Run(EMPTY, events);
    var x := s.commands[key].creator;
    InvHolds(events);
    CallersFollow(events, x);
    assert CommandFits(s, key) && CallerFits(s, x);
    hide Run, HasAgreed, HasTripped, Inv, StreamOf, StoryOf;
  }

  // ---------------------------------------------------------------- whole requests

  lemma RunAppend(s: State, events: seq<Event>, e: Event)
    ensures Run(s, events + [e]) == Next(Run(s, events), e)
  {
    assert (events + [e])[..|events|] == events;
  }

  lemma RunTwo(s: State, events: seq<Event>, a: Event, b: Event)
    ensures Run(s, events + [a, b]) == Next(Next(Run(s, events), a), b)
  {
    hide Run, Next;
    var first := events + [a];
    assert first + [b] == events + [a, b];
    RunAppend(s, events, a);
    RunAppend(s, first, b);
  }

  /** The system with one caller in a phase. */
  function With(s: State, x: nat, key: Key, payload: nat, phase: Phase): State {
    s.(callers := s.callers[x := Caller(key, payload, phase)])
  }

  lemma Moves(s: State, x: nat, key: Key, payload: nat, from: Phase, to: Phase)
    ensures To(With(s, x, key, payload, from), x, to) == With(s, x, key, payload, to)
  {
  }

  /** A request up to the creation of its command. */
  function Creation(x: nat, key: Key, payload: nat, id: nat): seq<Event> {
    [Arrive(x, key, payload)] + [Lookup(x, true), Create(x, id, true)]
  }

  /** The tables with a command of this caller in some state. */
  function Holding(s: State, x: nat, key: Key, payload: nat, id: nat, status: Status, version: nat, notices: seq<Notice>): State {
    s.(commands := s.commands[key := Command(id, payload, status, version, x)],
       outbox := s.outbox + notices, ids := s.ids + {id})
  }

  lemma CreationRun(s: State, x: nat, key: Key, payload: nat, id: nat)
    requires x !in s.callers && key !in s.commands && id !in s.ids
    ensures Run(s, Creation(x, key, payload, id))
         == With(Holding(s, x, key, payload, id, QUEUED, 1, [Queued(id)]), x, key, payload, Marking)
  {
    RunAppend(s, [], Arrive(x, key, payload));
    assert [] + [Arrive(x, key, payload)] == [Arrive(x, key, payload)];
    RunTwo(s, [Arrive(x, key, payload)], Lookup(x, true), Create(x, id, true));
    Moves(s, x, key, payload, Looking, Creating);
    Moves(Holding(s, x, key, payload, id, QUEUED, 1, [Queued(id)]), x, key, payload, Creating, Marking);
  }

  /** The charging service is asked. */
  function Sending(x: nat): seq<Event> {
    [MarkSent(x, true), Dispatch(x)]
  }

  /** The state of a command that was dispatched and waits for the charging service. */
  function Dispatched(base: State, x: nat, key: Key, payload: nat, id: nat): State {
    With(Holding(base, x, key, payload, id, SENT, 1, [Queued(id)]).(dispatches := base.dispatches + multiset{id}),
         x, key, payload, Waiting)
  }

  lemma SendingRun(s: State, before: seq<Event>, base: State, x: nat, key: Key, payload: nat, id: nat)
    requires Run(s, before) == With(Holding(base, x, key, payload, id, QUEUED, 1, [Queued(id)]), x, key, payload, Marking)
    ensures Run(s, before + Sending(x)) == Dispatched(base, x, key, payload, id)
  {
    RunTwo(s, before, MarkSent(x, true), Dispatch(x));
    SendingSteps(base, x, key, payload, id);
    hide Run, Next, Holding, With;
  }

  lemma SendingSteps(base: State, x: nat, key: Key, payload: nat, id: nat)
    ensures
      var created := With(Holding(base, x, key, payload, id, QUEUED, 1, [Queued(id)]), x, key, payload, Marking);
      Next(Next(created, MarkSent(x, true)), Dispatch(x)) == Dispatched(base, x, key, payload, id)
  {
    var created := With(Holding(base, x, key, payload, id, QUEUED, 1, [Queued(id)]), x, key, payload, Marking);
    var sent := Holding(base, x, key, payload, id, SENT, 1, [Queued(id)]);
    assert Next(created, MarkSent(x, true)) == With(sent, x, key, payload, Dispatching);
    Moves(sent.(dispatches := base.dispatches + multiset{id}), x, key, payload, Dispatching, Waiting);
  }

  lemma AcceptingSteps(base: State, x: nat, key: Key, payload: nat, id: nat)
    ensures
      var accepted := Next(Next(Dispatched(base, x, key, payload, id), Answer(x, true)), Accept(x, true));
      && At(accepted, x, Done(Replied(id))) && accepted.outbox == base.outbox + [Queued(id), Accepted(id)]
      && accepted.dispatches == base.dispatches + multiset{id}
      && accepted.commands == base.commands[key := Command(id, payload, ACCEPTED, 2, x)]
  {
    assert base.outbox + [Queued(id)] + [Accepted(id)] == base.outbox + [Queued(id), Accepted(id)];
  }

  lemma FailingSteps(base: State, x: nat, key: Key, payload: nat, id: nat)
    ensures
      var failed := Next(Next(Dispatched(base, x, key, payload, id), Answer(x, false)), Fail(x, true));
      && At(failed, x, Done(Error)) && failed.outbox == base.outbox + [Queued(id), Failed(id)]
      && failed.dispatches == base.dispatches + multiset{id}
      && failed.commands == base.commands[key := Command(id, payload, FAILED, 2, x)]
  {
    assert base.outbox + [Queued(id)] + [Failed(id)] == base.outbox + [Queued(id), Failed(id)];
  }

  /** Undisturbed, a new key is dispatched once and answered as the charging service answers. */
  lemma NewKeyIsAnswered(s: State, x: nat, key: Key, payload: nat, id: nat, ok: bool)
    requires x !in s.callers && key !in s.commands && id !in s.ids
    ensures
      var ending := if ok then [Answer(x, true), Accept(x, true)] else [Answer(x, false), Fail(x, true)];
      var after := Run(s, Creation(x, key, payload, id) + Sending(x) + ending);
      && At(after, x, Done(if ok then Replied(id) else Error))
      && after.commands == s.commands[key := Command(id, payload, if ok then ACCEPTED else FAILED, 2, x)]
      && after.outbox == s.outbox + [Queued(id), if ok then Accepted(id) else Failed(id)]
      && after.dispatches == s.dispatches + multiset{id}
  {
    CreationRun(s, x, key, payload, id);
    SendingRun(s, Creation(x, key, payload, id), s, x, key, payload, id);
    if ok {
      AcceptingSteps(s, x, key, payload, id);
      RunTwo(s, Creation(x, key, payload, id) + Sending(x), Answer(x, true), Accept(x, true));
    } else {
      FailingSteps(s, x, key, payload, id);
      RunTwo(s, Creation(x, key, payload, id) + Sending(x), Answer(x, false), Fail(x, true));
    }
    hide Run, Next, Dispatched;
  }

  /** Undisturbed, a command that cannot be marked as sent fails without a dispatch. */
  lemma UnmarkedFails(s: State, x: nat, key: Key, payload: nat, id: nat)
    requires x !in s.callers && key !in s.commands && id !in s.ids
    ensures
      var after := Run(s, Creation(x, key, payload, id) + [MarkSent(x, false), Fail(x, true)]);
      && At(after, x, Done(Error)) && after.dispatches == s.dispatches
      && after.commands == s.commands[key := Command(id, payload, FAILED, 2, x)]
      && after.outbox == s.outbox + [Queued(id), Failed(id)]
  {
    CreationRun(s, x, key, payload, id);
    UnmarkedSteps(Run(s, Creation(x, key, payload, id)), s, x, key, payload, id);
    RunTwo(s, Creation(x, key, payload, id), MarkSent(x, false), Fail(x, true));
    hide Run, Next, Holding, With;
  }

  lemma UnmarkedSteps(s: State, base: State, x: nat, key: Key, payload: nat, id: nat)
    requires s == With(Holding(base, x, key, payload, id, QUEUED, 1, [Queued(id)]), x, key, payload, Marking)
    ensures
      var failed := Next(Next(s, MarkSent(x, false)), Fail(x, true));
      && At(failed, x, Done(Error)) && failed.dispatches == base.dispatches
      && failed.commands == base.commands[key := Command(id, payload, FAILED, 2, x)]
      && failed.outbox == base.outbox + [Queued(id), Failed(id)]
  {
    assert base.outbox + [Queued(id)] + [Failed(id)] == base.outbox + [Queued(id), Failed(id)];
  }

  /**
    Undisturbed, a known key answers its command to an equal payload and a conflict to any other, and
    changes nothing else; a creation that meets the unique index is answered the same.
   */
  lemma KnownKeyIsReplayed(s: State, x: nat, key: Key, payload: nat, id: nat)
    requires key in s.commands && id !in s.ids
    ensures
      var reply := if s.commands[key].payload == payload then Replied(s.commands[key].id) else Conflict;
      && (x !in s.callers ==>
            Next(Next(s, Arrive(x, key, payload)), Lookup(x, true)) == With(s, x, key, payload, Done(reply)))
      && (x in s.callers && s.callers[x] == Caller(key, payload, Creating) ==>
            Next(Next(s, Create(x, id, true)), Reread(x, true)) == With(s, x, key, payload, Done(reply)))
  {
  }

  /** A query that fails answers its caller with an error and changes no table. */
  lemma FailedQueriesAnswerErrors(s: State, x: nat, id: nat)
    requires x in s.callers && id !in s.ids
    ensures
      var phase, failed := s.callers[x].phase, To(s, x, Done(Error));
      && (phase == Looking ==> Next(s, Lookup(x, false)) == failed)
      && (phase == Creating ==> Next(s, Create(x, id, false)) == failed)
      && (phase == Clashed ==> Next(s, Reread(x, false)) == failed)
      && (phase == Failing && s.callers[x].key in s.commands ==> Next(s, Fail(x, false)) == failed)
  {
  }

  /** An acceptance that fails fails the command, although the charging service has taken it. */
  lemma FailedAcceptanceFails(s: State, x: nat)
    requires At(s, x, Accepting) && s.callers[x].key in s.commands
    ensures
      var key := s.callers[x].key;
      var after := Next(Next(s, Accept(x, false)), Fail(x, true));
      && At(after, x, Done(Error)) && after.outbox == s.outbox + [Failed(s.commands[key].id)]
      && after.commands == s.commands[key := s.commands[key].(status := FAILED, version := s.commands[key].version + 1)]
  {
  }
}
