/**
  Waiting for a charge point (`waitForValue`, `resolveStart` and `resolveStop` in
  apps/backend/src/ocpp/ocpp16-central-system.service.ts), for one session and one of the two pending
  maps: check the row, register, check again, against handlers that store first and notify afterwards.

  The awaited value is the start or stop meter. `stored` is the value the row offers at the moment, None
  while the row is not in the awaited state. `owed` are the notifications not yet run, by handler.
 */
module OcppWakeup {
  import opened Common

  datatype Source = BY_CHECK | BY_NOTICE

  datatype Phase =
    | Checking                                  // before the first query
    | Checked(found: Option<nat>)               // the query was answered, the continuation has not run
    | Registered                                // in the pending map as far as the waiter knows; its timer is live
    | Resolved(meterWh: nat, source: Source)
    | TimedOut
    | Refused                                   // the first query failed

  /** The second query; one that fails ends without a value and without telling anybody. */
  datatype Recheck = NotStarted | Querying | Found(value: Option<nat>) | Finished(value: Option<nat>)

  /** `since` counts the notifications that had run when the waiter registered. */
  datatype Waiter = Waiter(phase: Phase, recheck: Recheck, since: nat)

  /** `droppable`: the STOPPED event is still to be published in front of the notification, and that may throw. */
  datatype Notice = Notice(meterWh: nat, droppable: bool)

  datatype Awaited = STARTS | STOPS

  /**
    `entry` is the waiter in the pending map, `told` the number of notifications that ran, `values` all
    meters ever stored, `announced` those of notifications without a write.
   */
  datatype State = State(
    awaited: Awaited, stored: Option<nat>, owed: map<nat, Notice>, entry: Option<nat>,
    waiters: map<nat, Waiter>, told: nat, values: set<nat>, announced: set<nat>)

  datatype Event =
    | Wait(id: nat)
    | Check(id: nat)
    | CheckFails(id: nat)
    | Continue(id: nat)
    | RecheckRead(id: nat)
    | RecheckFails(id: nat)
    | RecheckContinue(id: nat)
    | Timeout(id: nat)
    | Persist(n: nat, meterWh: nat)    // handler n stores the awaited value
    | Announce(n: nat, meterWh: nat)   // handler n notifies without having stored
    | Published(n: nat)                // the STOPPED event of handler n was delivered
    | Drop(n: nat)                     // delivering it threw, so handler n never gets to its notification
    | Notify(n: nat)
    | Withdraw                         // the row leaves the awaited state

  function To(s: State, id: nat, waiter: Waiter): State {
    s.(waiters := s.waiters[id := waiter])
  }

  /** Settle whoever is in the map. */
  function Settle(s: State, meterWh: nat, source: Source): State {
    if s.entry.Some? && s.entry.value in s.waiters then
      To(s, s.entry.value, s.waiters[s.entry.value].(phase := Resolved(meterWh, source))).(entry := None)
    else s
  }

  function ContinueStep(s: State, id: nat): State {
    if id in s.waiters && s.waiters[id].phase.Checked? then
      var found := s.waiters[id].phase.found;
      if found.Some? then To(s, id, s.waiters[id].(phase := Resolved(found.value, BY_CHECK)))
      else To(s, id, Waiter(Registered, Querying, s.told)).(entry := Some(id))
    else s
  }

  function RecheckContinueStep(s: State, id: nat): State {
    if id in s.waiters && s.waiters[id].recheck.Found? then
      var value := s.waiters[id].recheck.value;
      var finished := To(s, id, s.waiters[id].(recheck := Finished(value)));
      if value.Some? then Settle(finished, value.value, BY_CHECK) else finished
    else s
  }

  /** `resolveStart` and `resolveStop` */
  function NotifyStep(s: State, n: nat): State {
    if n in s.owed && !s.owed[n].droppable then
      Settle(s, s.owed[n].meterWh, BY_NOTICE).(owed := s.owed - {n}, told := s.told + 1)
    else s
  }

  function WaiterStep(s: State, e: Event): State
    requires e.Wait? || e.Check? || e.CheckFails? || e.RecheckRead? || e.RecheckFails? || e.Timeout?
  {
    if e.Wait? then (if e.id in s.waiters then s else To(s, e.id, Waiter(Checking, NotStarted, s.told)))
    else if e.id !in s.waiters then s
    else
      var waiter := s.waiters[e.id];
      match e
      case Check(id) => if waiter.phase.Checking? then To(s, id, waiter.(phase := Checked(s.stored))) else s
      case CheckFails(id) => if waiter.phase.Checking? then To(s, id, waiter.(phase := Refused)) else s
      case RecheckRead(id) => if waiter.recheck.Querying? then To(s, id, waiter.(recheck := Found(s.stored))) else s
      case RecheckFails(id) => if waiter.recheck.Querying? then To(s, id, waiter.(recheck := Finished(None))) else s
      case _ => if waiter.phase.Registered? then To(s, e.id, waiter.(phase := TimedOut)).(entry := None) else s
  }

  /** What the handlers of the charge point's frames and the remote commands do. */
  function HandlerStep(s: State, e: Event): State
    requires e.Persist? || e.Announce? || e.Published? || e.Drop? || e.Withdraw?
  {
    match e
    case Persist(n, meterWh) =>
      if n in s.owed then s
      else s.(stored := Some(meterWh), owed := s.owed[n := Notice(meterWh, s.awaited == STOPS)],
              values := s.values + {meterWh})
    case Announce(n, meterWh) =>
      if n in s.owed then s
      else s.(owed := s.owed[n := Notice(meterWh, false)], announced := s.announced + {meterWh})
    case Published(n) => if n in s.owed then s.(owed := s.owed[n := s.owed[n].(droppable := false)]) else s
    case Drop(n) => if n in s.owed && s.owed[n].droppable then s.(owed := s.owed - {n}) else s
    case _ => s.(stored := None)
  }

  function Next(s: State, e: Event): State {
    match e
    case Continue(id) => ContinueStep(s, id)
    case RecheckContinue(id) => RecheckContinueStep(s, id)
    case Notify(n) => NotifyStep(s, n)
    case Wait(_) => WaiterStep(s, e)
    case Check(_) => WaiterStep(s, e)
    case CheckFails(_) => WaiterStep(s, e)
    case RecheckRead(_) => WaiterStep(s, e)
    case RecheckFails(_) => WaiterStep(s, e)
    case Timeout(_) => WaiterStep(s, e)
    case _ => HandlerStep(s, e)
  }

  function Run(s: State, events: seq<Event>): State {
    if events == [] then s else Next(Run(s, events[..|events| - 1]), events[|events| - 1])
  }

  function Start(awaited: Awaited): State {
    State(awaited, None, map[], None, map[], 0, {}, {})
  }

  // ---------------------------------------------------------------- the invariant

  predicate From(values: set<nat>, value: Option<nat>) {
    value.Some? ==> value.value in values
  }

  predicate WaiterInv(s: State, waiter: Waiter) {
    && waiter.since <= s.told
    && (waiter.phase.Checking? || waiter.phase.Checked? || waiter.phase.Refused? ==> waiter.recheck.NotStarted?)
    && (waiter.phase.Registered? || waiter.phase.TimedOut? ==> !waiter.recheck.NotStarted?)
    && (waiter.phase.Checked? ==> From(s.values, waiter.phase.found))
    && (waiter.recheck.Found? ==> From(s.values, waiter.recheck.value))
    && (waiter.phase.Resolved? ==>
          && waiter.phase.meterWh in s.values + s.announced
          && (waiter.phase.source == BY_CHECK ==> waiter.phase.meterWh in s.values))
  }

  ghost predicate Inv(s: State) {
    && (s.entry.Some? ==> s.entry.value in s.waiters && s.waiters[s.entry.value].phase.Registered?)
    && From(s.values, s.stored)
    && (forall n :: n in s.owed ==> s.owed[n].meterWh in s.values + s.announced)
    && (s.awaited == STARTS ==> forall n :: n in s.owed ==> !s.owed[n].droppable)
    && (forall id :: id in s.waiters ==> WaiterInv(s, s.waiters[id]))
  }

  lemma SettlingKeepsInv(s: State, id: nat, n: nat)
    requires Inv(s)
    ensures Inv(RecheckContinueStep(s, id)) && Inv(NotifyStep(s, n))
  {
  }

  lemma HandlersKeepInv(s: State, e: Event)
    requires Inv(s) && (e.Persist? || e.Announce? || e.Published? || e.Drop? || e.Withdraw?)
    ensures Inv(HandlerStep(s, e))
  {
  }

  lemma NextKeepsInv(s: State, e: Event)
    requires Inv(s)
    ensures Inv(Next(s, e)) && Next(s, e).awaited == s.awaited
  {
    if e.RecheckContinue? {
      SettlingKeepsInv(s, e.id, 0);
    } else if e.Notify? {
      SettlingKeepsInv(s, 0, e.n);
    } else if e.Persist? || e.Announce? || e.Published? || e.Drop? || e.Withdraw? {
      HandlersKeepInv(s, e);
    }
  }

  lemma {:induction false} RunKeepsInv(awaited: Awaited, events: seq<Event>)
    ensures Inv(Run(Start(awaited), events)) && Run(Start(awaited), events).awaited == awaited
  {
    if events != [] {
      RunKeepsInv(awaited, events[..|events| - 1]);
      NextKeepsInv(Run(Start(awaited), events[..|events| - 1]), events[|events| - 1]);
    }
  }

  // ---------------------------------------------------------------- what a waiter is told

  /** The step that gives a waiter its value: its own first check, a second check, or a notification. */
  predicate Tells(s: State, e: Event, id: nat, meterWh: nat, source: Source) {
    match e
    case Continue(x) => x == id && id in s.waiters && s.waiters[id].phase == Checked(Some(meterWh)) && source == BY_CHECK
    case RecheckContinue(x) =>
      x in s.waiters && s.waiters[x].recheck == Found(Some(meterWh)) && s.entry == Some(id) && source == BY_CHECK
    case Notify(n) => n in s.owed && s.owed[n] == Notice(meterWh, false) && s.entry == Some(id) && source == BY_NOTICE
    case _ => false
  }

  lemma ResolvedIffTold(s: State, e: Event, id: nat, meterWh: nat, source: Source)
    requires Inv(s) && id in s.waiters && !s.waiters[id].phase.Resolved?
    ensures id in Next(s, e).waiters
    ensures Next(s, e).waiters[id].phase == Resolved(meterWh, source) <==> Tells(s, e, id, meterWh, source)
  {
  }

  /**
    Whatever a waiter was told was stored or announced at some time; what a check told it was stored. So
    a meter that nobody ever stored comes only from a notification without a write.
   */
  lemma ToldWhatWasStoredOrAnnounced(awaited: Awaited, events: seq<Event>, id: nat)
    requires id in Run(Start(awaited), events).waiters && Run(Start(awaited), events).waiters[id].phase.Resolved?
    ensures
      var s := Run(Start(awaited), events);
      var told := s.waiters[id].phase;
      && told.meterWh in s.values + s.announced
      && (told.meterWh !in s.values ==> told.source == BY_NOTICE && told.meterWh in s.announced)
  {
    RunKeepsInv(awaited, events);
    assert WaiterInv(Run(Start(awaited), events), Run(Start(awaited), events).waiters[id]);
  }

  // ---------------------------------------------------------------- the entry in the map

  /** Something that will settle the waiter is still to come, or the row offers nothing. */
  predicate Awake(s: State, waiter: Waiter) {
    || waiter.recheck.Querying?
    || (waiter.recheck.Found? && waiter.recheck.value.Some?)
    || s.stored.None?
    || s.owed != map[]
  }

  predicate EntryAwake(s: State) {
    s.entry.Some? ==> s.entry.value in s.waiters && Awake(s, s.waiters[s.entry.value])
  }

  /** Nothing but what is about to fail was going to settle the entry, although the row offers the value. */
  predicate Forgets(s: State, e: Event) {
    && s.stored.Some? && s.entry.Some? && s.entry.value in s.waiters
    && var recheck := s.waiters[s.entry.value].recheck;
    && match e
       case Drop(n) =>
         && n in s.owed && s.owed[n].droppable && s.owed.Keys == {n}
         && !recheck.Querying? && !(recheck.Found? && recheck.value.Some?)
       case RecheckFails(id) => s.entry == Some(id) && recheck.Querying? && s.owed == map[]
       case _ => false
  }

  lemma EmptyWithout(owed: map<nat, Notice>, n: nat)
    requires n in owed
    ensures owed - {n} == map[] <==> owed.Keys == {n}
  {
    if owed - {n} == map[] {
      forall m | m in owed.Keys ensures m in {n} {
        assert m != n ==> m in owed - {n};
      }
    } else {
      var m :| m in owed - {n};
      assert m in owed.Keys && m != n;
    }
  }

  lemma HandlersForgetIff(s: State, e: Event)
    requires Inv(s) && EntryAwake(s) && (e.Persist? || e.Announce? || e.Published? || e.Drop? || e.Withdraw?)
    ensures EntryAwake(HandlerStep(s, e)) <==> !Forgets(s, e)
  {
    if e.Drop? && e.n in s.owed {
      EmptyWithout(s.owed, e.n);
    } else if (e.Persist? || e.Announce?) && e.n !in s.owed {
      assert e.n in HandlerStep(s, e).owed;
    } else if e.Published? && e.n in s.owed {
      assert e.n in HandlerStep(s, e).owed;
    }
  }

  lemma NotifyLeavesNobody(s: State, n: nat)
    requires Inv(s) && EntryAwake(s)
    ensures EntryAwake(NotifyStep(s, n))
  {
  }

  /** The wake-up of the entry is lost in exactly two kinds of steps. */
  lemma EntryStaysAwakeIff(s: State, e: Event)
    requires Inv(s) && EntryAwake(s)
    ensures EntryAwake(Next(s, e)) <==> !Forgets(s, e)
  {
    if e.Notify? {
      NotifyLeavesNobody(s, e.n);
    } else if e.Persist? || e.Announce? || e.Published? || e.Drop? || e.Withdraw? {
      HandlersForgetIff(s, e);
    }
  }

  ghost predicate NeverForgets(awaited: Awaited, events: seq<Event>) {
    events != [] ==>
      && NeverForgets(awaited, events[..|events| - 1])
      && !Forgets(Run(Start(awaited), events[..|events| - 1]), events[|events| - 1])
  }

  ghost predicate AlwaysAwake(awaited: Awaited, events: seq<Event>) {
    EntryAwake(Run(Start(awaited), events)) && (events != [] ==> AlwaysAwake(awaited, events[..|events| - 1]))
  }

  /**
    For any number of waiters: the one in the pending map always has something coming that settles it,
    unless the row offers nothing, exactly when no failing publication and no failing second query takes
    away the last such thing.
   */
  lemma {:induction false} TheEntryIsForgottenIff(awaited: Awaited, events: seq<Event>)
    ensures AlwaysAwake(awaited, events) <==> NeverForgets(awaited, events)
  {
    if events != [] {
      var front, e := events[..|events| - 1], events[|events| - 1];
      TheEntryIsForgottenIff(awaited, front);
      if AlwaysAwake(awaited, front) {
        RunKeepsInv(awaited, front);
        EntryStaysAwakeIff(Run(Start(awaited), front), e);
      }
    }
  }

  /** A start is announced right after its write, so only a failing second query can lose its wake-up. */
  lemma StartsAreNeverDropped(events: seq<Event>, n: nat)
    ensures Next(Run(Start(STARTS), events), Drop(n)) == Run(Start(STARTS), events)
    ensures !Forgets(Run(Start(STARTS), events), Drop(n))
  {
    RunKeepsInv(STARTS, events);
  }

  lemma RunAppend(s: State, events: seq<Event>, e: Event)
    ensures Run(s, events + [e]) == Next(Run(s, events), e)
  {
    assert (events + [e])[..|events|] == events;
  }

  /** A waiter registers and finds nothing twice, the stop is stored, and its publication fails. */
  function FailedPublication(id: nat, n: nat, meterWh: nat): seq<Event> {
    [Wait(id), Check(id), Continue(id), RecheckRead(id), RecheckContinue(id), Persist(n, meterWh), Drop(n)]
  }

  lemma FindsNothingTwice(id: nat)
    ensures
      var s := Run(Start(STOPS), [Wait(id), Check(id), Continue(id), RecheckRead(id), RecheckContinue(id)]);
      s == Start(STOPS).(entry := Some(id), waiters := map[id := Waiter(Registered, Finished(None), 0)])
  {
    var s := Start(STOPS);
    var looked := [Wait(id), Check(id)];
    RunAppend(s, [], Wait(id));
    RunAppend(s, [Wait(id)], Check(id));
    assert Run(s, looked) == s.(waiters := map[id := Waiter(Checked(None), NotStarted, 0)]);
    RunAppend(s, looked, Continue(id));
    RunAppend(s, looked + [Continue(id)], RecheckRead(id));
    RunAppend(s, looked + [Continue(id)] + [RecheckRead(id)], RecheckContinue(id));
    assert looked + [Continue(id)] + [RecheckRead(id)] + [RecheckContinue(id)]
        == [Wait(id), Check(id), Continue(id), RecheckRead(id), RecheckContinue(id)];
  }

  /** The session's stop is in the database, its waiter is in the map, and nothing is left to come but its timer. */
  lemma FailedPublicationStrandsTheWaiter(id: nat, n: nat, meterWh: nat)
    ensures
      var s := Run(Start(STOPS), FailedPublication(id, n, meterWh));
      s.stored == Some(meterWh) && s.entry == Some(id) && s.owed == map[] && !EntryAwake(s)
  {
    var waiting := [Wait(id), Check(id), Continue(id), RecheckRead(id), RecheckContinue(id)];
    FindsNothingTwice(id);
    RunAppend(Start(STOPS), waiting, Persist(n, meterWh));
    RunAppend(Start(STOPS), waiting + [Persist(n, meterWh)], Drop(n));
    assert waiting + [Persist(n, meterWh)] + [Drop(n)] == FailedPublication(id, n, meterWh);
  }

  // ---------------------------------------------------------------- waiters that share the key

  /** Every waiter that thinks it is registered is the one in the map. */
  ghost predicate NoOrphans(s: State) {
    forall id :: id in s.waiters && s.waiters[id].phase.Registered? ==> s.entry == Some(id)
  }

  /** A waiter registers while another one is in the map. */
  predicate Overwrites(s: State, e: Event) {
    && e.Continue? && e.id in s.waiters && s.waiters[e.id].phase == Checked(None) && s.entry.Some?
  }

  /** A waiter drops out of the map unsettled exactly when another one registers over it. */
  lemma OrphansComeFromOverwriting(s: State, e: Event)
    requires Inv(s) && NoOrphans(s)
    ensures NoOrphans(Next(s, e)) <==> !Overwrites(s, e)
  {
  }

  /** It was offered nothing: the second check, if it has ended, found nothing, and no notification ran since. */
  predicate OfferedNothing(s: State, waiter: Waiter) {
    waiter.since == s.told && (waiter.recheck.Finished? ==> waiter.recheck.value.None?)
  }

  ghost predicate WaitersWereOfferedNothing(s: State) {
    forall id :: id in s.waiters && s.waiters[id].phase.Registered? ==> OfferedNothing(s, s.waiters[id])
  }

  lemma StillOfferedNothing(s: State, e: Event)
    requires Inv(s) && NoOrphans(s) && WaitersWereOfferedNothing(s)
    ensures WaitersWereOfferedNothing(Next(s, e))
  {
  }

  ghost predicate NeverOverwrites(awaited: Awaited, events: seq<Event>) {
    events != [] ==>
      && NeverOverwrites(awaited, events[..|events| - 1])
      && !Overwrites(Run(Start(awaited), events[..|events| - 1]), events[|events| - 1])
  }

  lemma {:induction false} NobodyIsOrphaned(awaited: Awaited, events: seq<Event>)
    requires NeverOverwrites(awaited, events)
    ensures NoOrphans(Run(Start(awaited), events)) && WaitersWereOfferedNothing(Run(Start(awaited), events))
  {
    if events != [] {
      var front, e := events[..|events| - 1], events[|events| - 1];
      NobodyIsOrphaned(awaited, front);
      RunKeepsInv(awaited, front);
      OrphansComeFromOverwriting(Run(Start(awaited), front), e);
      StillOfferedNothing(Run(Start(awaited), front), e);
    }
  }

  /**
    No lost wake-up: in every run in which waiters do not overwrite each other, one that has finished its
    second check is still waiting only if that check found nothing and no notification has run since it
    registered. If nothing was forgotten either, then the row offers nothing or a notification is to come.
   */
  lemma NoLostWakeUp(awaited: Awaited, events: seq<Event>, id: nat)
    requires NeverOverwrites(awaited, events)
    requires
      var s := Run(Start(awaited), events);
      id in s.waiters && s.waiters[id].recheck.Finished?
    ensures
      var s := Run(Start(awaited), events);
      && (s.waiters[id].phase.Registered? || s.waiters[id].phase.TimedOut? || s.waiters[id].phase.Resolved?)
      && (s.waiters[id].phase.Registered? ==> s.waiters[id].recheck.value.None? && s.waiters[id].since == s.told)
      && (s.waiters[id].phase.Registered? && NeverForgets(awaited, events) ==> s.stored.None? || s.owed != map[])
  {
    NobodyIsOrphaned(awaited, events);
    RunKeepsInv(awaited, events);
    TheEntryIsForgottenIff(awaited, events);
    var s := Run(Start(awaited), events);
    assert WaiterInv(s, s.waiters[id]);
    assert s.waiters[id].phase.Registered? ==> OfferedNothing(s, s.waiters[id]);
  }

  // ---------------------------------------------------------------- one waiter

  /** The gateway is called once a session, so only one caller ever waits. */
  predicate OneWaiter(events: seq<Event>, id: nat) {
    forall i :: 0 <= i < |events| && events[i].Wait? ==> events[i].id == id
  }

  lemma {:induction false} OneWaiterNeverOverwrites(awaited: Awaited, events: seq<Event>, id: nat)
    requires OneWaiter(events, id)
    ensures Run(Start(awaited), events).waiters.Keys <= {id} && NeverOverwrites(awaited, events)
  {
    if events != [] {
      var front, e := events[..|events| - 1], events[|events| - 1];
      OneWaiterNeverOverwrites(awaited, front, id);
      RunKeepsInv(awaited, front);
      assert e.Wait? ==> e.id == id;
      NoNewWaiters(Run(Start(awaited), front), e, id);
    }
  }

  lemma NoNewWaiters(s: State, e: Event, id: nat)
    requires Inv(s) && s.waiters.Keys <= {id} && (e.Wait? ==> e.id == id)
    ensures Next(s, e).waiters.Keys <= {id} && !Overwrites(s, e)
  {
    if s.entry.Some? && e.Continue? && e.id in s.waiters {
      assert s.entry.value in s.waiters.Keys && e.id in s.waiters.Keys;
    }
  }

  // ---------------------------------------------------------------- two waiters

  /** The first waiter has registered and checked twice in vain, the second is about to register. */
  predicate BothFoundNothing(s: State, first: nat, second: nat, n: nat) {
    && first != second && first in s.waiters && second in s.waiters && s.awaited == STARTS
    && s.waiters[first].phase.Registered? && s.waiters[first].recheck == Finished(None)
    && s.waiters[second].phase == Checked(None)
    && s.entry == Some(first) && s.owed == map[] && n !in s.owed
  }

  /**
    Two waiters on one session would lose a wake-up: the second registers over the first, the
    notification settles only the second, and the first has nothing left to come but its timer.
   */
  lemma SecondWaiterSilencesTheFirst(s: State, first: nat, second: nat, n: nat, meterWh: nat)
    requires BothFoundNothing(s, first, second, n)
    ensures
      var after := Next(Next(Next(s, Continue(second)), Persist(n, meterWh)), Notify(n));
      && after.stored == Some(meterWh) && after.owed == map[]
      && after.waiters[second].phase == Resolved(meterWh, BY_NOTICE)
      && after.waiters[first] == s.waiters[first] && after.entry == None
  {
  }
}
