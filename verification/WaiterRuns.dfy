/**
  What a waiter of `waitForValue` gets (apps/backend/src/ocpp/ocpp16-central-system.service.ts): whole
  waits with nothing else in between, whichever of its two checks or the notification has the value.
 */
module WaiterRuns {
  import opened Common
  import opened OcppWakeup

  /** The system with one waiter in some state. */
  function With(s: State, id: nat, waiter: Waiter): State {
    s.(waiters := s.waiters[id := waiter])
  }

  lemma Moves(s: State, id: nat, from: Waiter, to: Waiter)
    ensures To(With(s, id, from), id, to) == With(s, id, to)
  {
  }

  lemma RunAppend(s: State, events: seq<Event>, e: Event)
    ensures Run(s, events + [e]) == Next(Run(s, events), e)
  {
    assert (events + [e])[..|events|] == events;
  }

  lemma RunThree(s: State, events: seq<Event>, a: Event, b: Event, c: Event)
    ensures Run(s, events + [a, b, c]) == Next(Next(Next(Run(s, events), a), b), c)
  {
    hide Run, Next;
    var first, second := events + [a], events + [a, b];
    assert first + [b] == second && second + [c] == events + [a, b, c];
    RunAppend(s, events, a);
    RunAppend(s, first, b);
    RunAppend(s, second, c);
  }

  lemma EmptyRun(s: State)
    ensures Run(s, []) == s
  {
  }

  /** Up to the registration. */
  function Waiting(id: nat): seq<Event> {
    [Wait(id), Check(id), Continue(id)]
  }

  /**
    A waiter whose first check finds a value gets it at once; any other is registered, in place of
    whoever was, with its second check out.
   */
  lemma WaitingRun(s: State, id: nat)
    requires id !in s.waiters
    ensures Run(s, Waiting(id)) ==
      if s.stored.Some? then With(s, id, Waiter(Resolved(s.stored.value, BY_CHECK), NotStarted, s.told))
      else With(s, id, Waiter(Registered, Querying, s.told)).(entry := Some(id))
  {
    hide Run;
    RunThree(s, [], Wait(id), Check(id), Continue(id));
    EmptyRun(s);
    assert [] + Waiting(id) == Waiting(id);
    var found := Waiter(Checked(s.stored), NotStarted, s.told);
    Moves(s, id, Waiter(Checking, NotStarted, s.told), found);
    if s.stored.Some? {
      Moves(s, id, found, Waiter(Resolved(s.stored.value, BY_CHECK), NotStarted, s.told));
    } else {
      Moves(s, id, found, Waiter(Registered, Querying, s.told));
    }
  }

  /** A registered waiter whose second check is still out. */
  predicate Waits(s: State, id: nat) {
    id in s.waiters && s.entry == Some(id) && s.waiters[id] == Waiter(Registered, Querying, s.waiters[id].since)
  }

  /** Its second check settles it with the value of the moment, or leaves it waiting; a failing one leaves it waiting. */
  lemma SecondCheck(s: State, id: nat)
    requires Waits(s, id)
    ensures
      var after := Next(Next(s, RecheckRead(id)), RecheckContinue(id));
      after == if s.stored.Some?
               then With(s, id, Waiter(Resolved(s.stored.value, BY_CHECK), Finished(s.stored), s.waiters[id].since)).(entry := None)
               else With(s, id, Waiter(Registered, Finished(None), s.waiters[id].since))
    ensures Next(s, RecheckFails(id)) == With(s, id, Waiter(Registered, Finished(None), s.waiters[id].since))
  {
    var since := s.waiters[id].since;
    assert s == With(s, id, s.waiters[id]);
    Moves(s, id, s.waiters[id], Waiter(Registered, Found(s.stored), since));
    Moves(s, id, Waiter(Registered, Found(s.stored), since), Waiter(Registered, Finished(s.stored), since));
    if s.stored.Some? {
      Moves(s, id, Waiter(Registered, Finished(s.stored), since),
            Waiter(Resolved(s.stored.value, BY_CHECK), Finished(s.stored), since));
    }
  }

  /** The value is stored, its event published where there is one, and the waiter notified. */
  function Telling(n: nat, meterWh: nat): seq<Event> {
    [Persist(n, meterWh), Published(n), Notify(n)]
  }

  lemma NoticeSettles(s: State, id: nat, n: nat, meterWh: nat)
    requires id in s.waiters && s.entry == Some(id) && n !in s.owed
    ensures
      var after := Run(s, Telling(n, meterWh));
      && after.waiters == s.waiters[id := s.waiters[id].(phase := Resolved(meterWh, BY_NOTICE))]
      && after.entry == None && after.stored == Some(meterWh) && after.owed == s.owed && after.told == s.told + 1
  {
    hide Run;
    RunThree(s, [], Persist(n, meterWh), Published(n), Notify(n));
    EmptyRun(s);
    assert [] + Telling(n, meterWh) == Telling(n, meterWh);
  }

  /** An event that cannot be delivered takes the notification with it: the value is there, and nobody is told. */
  lemma DroppedNoticeSettlesNobody(s: State, n: nat, meterWh: nat)
    requires n !in s.owed && s.awaited == STOPS
    ensures
      var after := Next(Next(s, Persist(n, meterWh)), Drop(n));
      && after.stored == Some(meterWh) && after.waiters == s.waiters && after.entry == s.entry
      && after.owed == s.owed && after.told == s.told
  {
  }

  /** The ends without a value: the timer, which empties the map, and a first check that fails. */
  lemma WaitsInVain(s: State, id: nat)
    requires id in s.waiters
    ensures s.waiters[id].phase.Registered? ==>
      Next(s, Timeout(id)) == With(s, id, s.waiters[id].(phase := TimedOut)).(entry := None)
    ensures s.waiters[id].phase.Checking? ==> Next(s, CheckFails(id)) == With(s, id, s.waiters[id].(phase := Refused))
  {
  }

  /** A waiter that finds nothing twice is told by the notification, whatever it waits for. */
  lemma WaiterIsNotified(s: State, id: nat, n: nat, meterWh: nat)
    requires id !in s.waiters && s.stored == None && n !in s.owed
    ensures
      var after := Run(s, Waiting(id) + [RecheckRead(id)] + [RecheckContinue(id)] + Telling(n, meterWh));
      && id in after.waiters && after.waiters[id].phase == Resolved(meterWh, BY_NOTICE) && after.entry == None
  {
    hide Run, Next;
    var looked := Waiting(id) + [RecheckRead(id)] + [RecheckContinue(id)];
    WaitingRun(s, id);
    RunAppend(s, Waiting(id), RecheckRead(id));
    RunAppend(s, Waiting(id) + [RecheckRead(id)], RecheckContinue(id));
    SecondCheck(Run(s, Waiting(id)), id);
    RunThree(s, looked, Persist(n, meterWh), Published(n), Notify(n));
    RunThree(Run(s, looked), [], Persist(n, meterWh), Published(n), Notify(n));
    EmptyRun(Run(s, looked));
    assert [] + Telling(n, meterWh) == Telling(n, meterWh);
    NoticeSettles(Run(s, looked), id, n, meterWh);
  }
}
