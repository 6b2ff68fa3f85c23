/**
  The session timeline (apps/backend/src/charging-history/charging-history.service.ts, getTimeline, and
  charging-history.presenter.ts, toTimelineEvent).
 */
module Timeline {
  import opened Common
  import opened Ordering
  import opened SessionLifecycle
  import opened Charging
  import opened AuditReplay

  datatype EventType =
    | created | authorized | starting | charging_started | stopping | completed | failed | cancelled
    | first_measurement

  datatype Event = Event(occurredAt: int, kind: EventType)

  function TypeOf(status: Status): EventType {
    match status
    case AUTHORIZED => authorized
    case CANCELLED => cancelled
    case CHARGING => charging_started
    case COMPLETED => completed
    case FAILED => failed
    case PENDING => created
    case STARTING => starting
    case STOPPING => stopping
  }

  /** `toTimelineEvent(statusFromAudit(after), createdAt)` of one entry. */
  function ToEvent(entry: Audit): Event {
    Event(entry.createdAt, TypeOf(entry.after.status))
  }

  function ToEvents(entries: seq<Audit>): seq<Event> {
    seq(|entries|, i requires 0 <= i < |entries| => ToEvent(entries[i]))
  }

  predicate HasCreated(events: seq<Event>) {
    exists i :: 0 <= i < |events| && events[i].kind == created
  }

  function ByOccurrence(): (Event, Event) -> bool {
    (a: Event, b: Event) => a.occurredAt <= b.occurredAt
  }

  /** The events before the final sort. */
  function Collected(fetched: seq<Audit>, sessionCreatedAt: int, firstMeter: Option<int>): seq<Event> {
    var events := ToEvents(fetched);
    var started := if HasCreated(events) then events else [Event(sessionCreatedAt, created)] + events;
    if firstMeter.Some? then started + [Event(firstMeter.value, first_measurement)] else started
  }

  /** The answer of getTimeline to the rows the database returned. */
  function TimelineOf(fetched: seq<Audit>, sessionCreatedAt: int, firstMeter: Option<int>): seq<Event> {
    Sort(Collected(fetched, sessionCreatedAt, firstMeter), ByOccurrence())
  }

  /** getTimeline with its local array: unshift, push, sort. */
  method GetTimeline(fetched: seq<Audit>, sessionCreatedAt: int, firstMeter: Option<int>) returns (events: seq<Event>)
    ensures events == TimelineOf(fetched, sessionCreatedAt, firstMeter)
    ensures SortedBy(events, ByOccurrence())
    ensures multiset(events) == multiset(Collected(fetched, sessionCreatedAt, firstMeter))
  {
    events := [];
    var hasCreated := false;
    for i := 0 to |fetched|
      invariant events == ToEvents(fetched[..i])
      invariant hasCreated == HasCreated(events)
    {
      var event := ToEvent(fetched[i]);
      assert HasCreated(events + [event]) <==> HasCreated(events) || event.kind == created by {
        if HasCreated(events) {
          var k :| 0 <= k < |events| && events[k].kind == created;
          assert (events + [event])[k].kind == created;
        }
        assert (events + [event])[|events|] == event;
      }
      events := events + [event];
      hasCreated := hasCreated || event.kind == created;
    }
    assert fetched[..|fetched|] == fetched;
    if !hasCreated {
      events := [Event(sessionCreatedAt, created)] + events;
    }
    if firstMeter.Some? {
      events := events + [Event(firstMeter.value, first_measurement)];
    }
    SortSorts(events, ByOccurrence());
    events := Sort(events, ByOccurrence());
  }

  /** Every status has an event type of its own. */
  lemma TypesNameStatuses(status: Status)
    ensures TypeOf(status) == created <==> status == PENDING
    ensures TypeOf(status) == authorized <==> status == AUTHORIZED
    ensures TypeOf(status) == starting <==> status == STARTING
    ensures TypeOf(status) == charging_started <==> status == CHARGING
    ensures TypeOf(status) == stopping <==> status == STOPPING
    ensures TypeOf(status) == completed <==> status == COMPLETED
    ensures TypeOf(status) == failed <==> status == FAILED
    ensures TypeOf(status) == cancelled <==> status == CANCELLED
  {
  }

  /**
    Nothing is lost and nothing made up: the timeline holds one event an entry, at its instant and of
    its status, a creation where no entry is one, and the first measurement if there is any.
   */
  lemma TimelineHoldsEveryEntry(fetched: seq<Audit>, sessionCreatedAt: int, firstMeter: Option<int>)
    ensures
      var creations := if exists i :: 0 <= i < |fetched| && fetched[i].after.status == PENDING then multiset{}
                       else multiset{Event(sessionCreatedAt, created)};
      var meters := if firstMeter.Some? then multiset{Event(firstMeter.value, first_measurement)} else multiset{};
      multiset(TimelineOf(fetched, sessionCreatedAt, firstMeter)) == multiset(ToEvents(fetched)) + creations + meters
    ensures |ToEvents(fetched)| == |fetched|
    ensures forall i :: 0 <= i < |fetched| ==>
      ToEvents(fetched)[i] == Event(fetched[i].createdAt, TypeOf(fetched[i].after.status))
  {
    SortSorts(Collected(fetched, sessionCreatedAt, firstMeter), ByOccurrence());
    CreationIsAnEntry(fetched);
    hide SortedBy, Sort, ToEvents, HasCreated;
  }

  lemma CreationIsAnEntry(fetched: seq<Audit>)
    ensures |ToEvents(fetched)| == |fetched|
    ensures forall i :: 0 <= i < |fetched| ==>
      ToEvents(fetched)[i] == Event(fetched[i].createdAt, TypeOf(fetched[i].after.status))
    ensures HasCreated(ToEvents(fetched)) <==> exists i :: 0 <= i < |fetched| && fetched[i].after.status == PENDING
  {
    assert forall i :: 0 <= i < |fetched| ==> (ToEvents(fetched)[i].kind == created <==> fetched[i].after.status == PENDING);
  }

  // ---------------------------------------------------------------- what the database may return

  function ByCreation(): (Audit, Audit) -> bool {
    (a: Audit, b: Audit) => a.createdAt <= b.createdAt
  }

  /** findMany with orderBy createdAt asc: the rows in some order that respects the instants. */
  ghost predicate LegalFetch(fetched: seq<Audit>, entries: seq<Audit>) {
    multiset(fetched) == multiset(entries) && SortedBy(fetched, ByCreation())
  }

  ghost predicate StrictlyLater(entries: seq<Audit>) {
    forall i, j :: 0 <= i < j < |entries| ==> entries[i].createdAt < entries[j].createdAt
  }

  /** With distinct rising instants there is only one order the rows can come in. */
  lemma {:induction false} OnlyOneOrder(fetched: seq<Audit>, entries: seq<Audit>)
    requires LegalFetch(fetched, entries) && StrictlyLater(entries)
    ensures fetched == entries
  {
    assert |fetched| == |entries| by {
      assert |multiset(fetched)| == |multiset(entries)|;
    }
    if entries != [] {
      FirstIsFirst(fetched, entries);
      assert fetched == [fetched[0]] + fetched[1..] && entries == [entries[0]] + entries[1..];
      assert multiset(fetched[1..]) == multiset(fetched) - multiset{fetched[0]};
      assert multiset(entries[1..]) == multiset(entries) - multiset{entries[0]};
      OnlyOneOrder(fetched[1..], entries[1..]);
    }
  }

  lemma FirstIsFirst(fetched: seq<Audit>, entries: seq<Audit>)
    requires LegalFetch(fetched, entries) && StrictlyLater(entries)
    requires |fetched| == |entries| > 0
    ensures fetched[0] == entries[0]
  {
    assert entries[0] in multiset(entries);
    var k :| 0 <= k < |fetched| && fetched[k] == entries[0];
    assert fetched[0] in multiset(fetched);
    var l :| 0 <= l < |entries| && entries[l] == fetched[0];
    assert k > 0 ==> ByCreation()(fetched[0], fetched[k]);
  }

  ghost predicate AllDistinct(entries: seq<Audit>) {
    forall i, j :: 0 <= i < j < |entries| ==> entries[i] != entries[j]
  }

  lemma Transposed(entries: seq<Audit>, i: nat) returns (swapped: seq<Audit>)
    requires i + 1 < |entries|
    ensures swapped == entries[..i] + [entries[i + 1], entries[i]] + entries[i + 2..]
    ensures multiset(swapped) == multiset(entries)
  {
    swapped := entries[..i] + [entries[i + 1], entries[i]] + entries[i + 2..];
    assert entries == entries[..i] + [entries[i], entries[i + 1]] + entries[i + 2..];
  }

  lemma {:induction false} RisesInSteps(entries: seq<Audit>, i: nat, j: nat)
    requires forall k :: 0 <= k < |entries| - 1 ==> entries[k].createdAt < entries[k + 1].createdAt
    requires i < j < |entries|
    ensures entries[i].createdAt < entries[j].createdAt
    decreases j - i
  {
    if i + 1 < j {
      RisesInSteps(entries, i, j - 1);
      assert entries[j - 1].createdAt < entries[j - 1 + 1].createdAt;
    }
  }

  /** Two neighbours written at one instant, or out of order, can come back the other way round. */
  lemma AnotherOrder(entries: seq<Audit>, i: nat) returns (fetched: seq<Audit>)
    requires AllDistinct(entries) && i + 1 < |entries|
    requires entries[i].createdAt >= entries[i + 1].createdAt
    ensures LegalFetch(fetched, entries) && fetched != entries
  {
    var le := ByCreation();
    SortSorts(entries, le);
    if SortedBy(entries, le) {
      fetched := Transposed(entries, i);
      assert le(entries[i], entries[i + 1]);
      TransposedIsSorted(entries, fetched, i);
      assert fetched[i] == entries[i + 1];
    } else {
      fetched := Sort(entries, le);
    }
  }

  lemma TransposedIsSorted(entries: seq<Audit>, swapped: seq<Audit>, i: nat)
    requires SortedBy(entries, ByCreation()) && i + 1 < |entries|
    requires entries[i].createdAt == entries[i + 1].createdAt
    requires swapped == entries[..i] + [entries[i + 1], entries[i]] + entries[i + 2..]
    ensures SortedBy(swapped, ByCreation())
  {
  }

  /**
    The order in which the audit rows come back is determined exactly when their instants strictly
    rise; a tie, or an instant out of order, lets the database return another order.
   */
  lemma OrderIsDeterminedIffStrict(entries: seq<Audit>)
    requires AllDistinct(entries)
    ensures (forall fetched :: LegalFetch(fetched, entries) ==> fetched == entries) <==> StrictlyLater(entries)
  {
    if StrictlyLater(entries) {
      forall fetched | LegalFetch(fetched, entries) ensures fetched == entries {
        OnlyOneOrder(fetched, entries);
      }
    } else if forall k :: 0 <= k < |entries| - 1 ==> entries[k].createdAt < entries[k + 1].createdAt {
      forall i, j | 0 <= i < j < |entries| ensures entries[i].createdAt < entries[j].createdAt {
        RisesInSteps(entries, i, j);
      }
    } else {
      var k :| 0 <= k < |entries| - 1 && entries[k].createdAt >= entries[k + 1].createdAt;
      var other := AnotherOrder(entries, k);
    }
  }

  // ---------------------------------------------------------------- timeline and audit log

  lemma {:induction false} SortOfSorted(events: seq<Event>)
    requires SortedBy(events, ByOccurrence())
    ensures Sort(events, ByOccurrence()) == events
  {
    if events != [] {
      SortOfSorted(events[1..]);
      assert events == [events[0]] + events[1..];
      if |events| > 1 {
        assert ByOccurrence()(events[0], events[1]);
      }
    }
  }

  function NotMeter(): Event -> bool {
    (e: Event) => e.kind != first_measurement
  }

  function IsMeter(): Event -> bool {
    (e: Event) => e.kind == first_measurement
  }

  lemma OccurrenceIsTotal()
    ensures TotalOrder(ByOccurrence())
  {
  }

  lemma PathEntriesDiffer(entries: seq<Audit>, row: Session)
    requires ReplaysTo(entries, row)
    ensures AllDistinct(entries)
  {
    forall i, j | 0 <= i < j < |entries| ensures entries[i] != entries[j] {
      PathsClimb(entries, row, i, j);
    }
  }

  lemma EventsAreNotMeters(entries: seq<Audit>)
    ensures Filter(ToEvents(entries), NotMeter()) == ToEvents(entries)
    ensures Filter(ToEvents(entries), IsMeter()) == []
  {
    FilterAll(ToEvents(entries), NotMeter());
    FilterNothing(ToEvents(entries), IsMeter());
  }

  /** Sorting events that are in order already, followed by at most one measurement. */
  lemma SortWithMeter(events: seq<Event>, meter: seq<Event>)
    requires SortedBy(events, ByOccurrence()) && |meter| <= 1
    requires Filter(events, NotMeter()) == events && Filter(events, IsMeter()) == []
    requires forall e :: e in meter ==> e.kind == first_measurement
    ensures Filter(Sort(events + meter, ByOccurrence()), NotMeter()) == events
    ensures Filter(Sort(events + meter, ByOccurrence()), IsMeter()) == meter
  {
    var le := ByOccurrence();
    OccurrenceIsTotal();
    SortFilter(events + meter, le, NotMeter());
    SortFilter(events + meter, le, IsMeter());
    FilterConcat(events, meter, NotMeter());
    FilterConcat(events, meter, IsMeter());
    FilterNothing(meter, NotMeter());
    FilterAll(meter, IsMeter());
    assert events + [] == events && [] + meter == meter;
    SortOfSorted(events);
    SortOfSorted(meter);
  }

  function MeterEvents(firstMeter: Option<int>): seq<Event> {
    if firstMeter.Some? then [Event(firstMeter.value, first_measurement)] else []
  }

  /** The timeline keeps the order in which the rows came, and adds the measurement by its instant. */
  lemma TimelineOfFetch(fetched: seq<Audit>, sessionCreatedAt: int, firstMeter: Option<int>)
    requires SortedBy(fetched, ByCreation()) && HasCreated(ToEvents(fetched))
    ensures
      var timeline := TimelineOf(fetched, sessionCreatedAt, firstMeter);
      && SortedBy(timeline, ByOccurrence())
      && Filter(timeline, NotMeter()) == ToEvents(fetched)
      && Filter(timeline, IsMeter()) == MeterEvents(firstMeter)
  {
    var events := ToEvents(fetched);
    var meter := MeterEvents(firstMeter);
    assert SortedBy(events, ByOccurrence()) by {
      forall i, j | 0 <= i < j < |events| ensures ByOccurrence()(events[i], events[j]) {
        assert ByCreation()(fetched[i], fetched[j]);
      }
    }
    EventsAreNotMeters(fetched);
    assert Collected(fetched, sessionCreatedAt, firstMeter) == events + meter;
    SortWithMeter(events, meter);
    OccurrenceIsTotal();
    SortSorts(events + meter, ByOccurrence());
  }

  /** Rows of a path in another order tell another story: no two of its statuses are the same. */
  lemma OtherOrderOtherStory(entries: seq<Audit>, row: Session, fetched: seq<Audit>)
    requires ReplaysTo(entries, row) && multiset(fetched) == multiset(entries) && fetched != entries
    ensures ToEvents(fetched) != ToEvents(entries)
  {
    assert |multiset(fetched)| == |fetched| == |entries|;
    var i :| 0 <= i < |entries| && fetched[i] != entries[i];
    assert fetched[i] in multiset(fetched);
    var j :| 0 <= j < |entries| && entries[j] == fetched[i];
    if i < j {
      PathsClimb(entries, row, i, j);
    } else {
      PathsClimb(entries, row, j, i);
    }
    assert ToEvents(fetched)[i].kind != ToEvents(entries)[i].kind;
  }

  lemma FetchHasCreated(entries: seq<Audit>, row: Session, fetched: seq<Audit>)
    requires ReplaysTo(entries, row) && multiset(fetched) == multiset(entries)
    ensures HasCreated(ToEvents(fetched))
  {
    assert entries[0] in multiset(entries);
    var k :| 0 <= k < |fetched| && fetched[k] == entries[0];
    assert ToEvents(fetched)[k].kind == created;
  }

  /**
    When the timeline can be trusted. For a session that replays, the timeline lists exactly the
    statuses of its lifecycle path in order, whatever order the database returns tied rows in, if and
    only if the instants of its audit entries strictly rise.
   */
  lemma TimelineIsThePathIffStrict(entries: seq<Audit>, row: Session, sessionCreatedAt: int, firstMeter: Option<int>)
    requires ReplaysTo(entries, row)
    ensures
      (forall fetched :: LegalFetch(fetched, entries) ==>
         Filter(TimelineOf(fetched, sessionCreatedAt, firstMeter), NotMeter()) == ToEvents(entries))
      <==> StrictlyLater(entries)
  {
    forall fetched | LegalFetch(fetched, entries)
      ensures Filter(TimelineOf(fetched, sessionCreatedAt, firstMeter), NotMeter()) == ToEvents(fetched)
    {
      FetchHasCreated(entries, row, fetched);
      TimelineOfFetch(fetched, sessionCreatedAt, firstMeter);
    }
    PathEntriesDiffer(entries, row);
    OrderIsDeterminedIffStrict(entries);
    if !StrictlyLater(entries) {
      var fetched :| LegalFetch(fetched, entries) && fetched != entries;
      OtherOrderOtherStory(entries, row, fetched);
    }
  }

  /**
    The timeline agrees with the audit log. After any run from fresh tables, for every session whose
    entries have strictly rising instants and for every order the database may return them in, the
    timeline lists exactly the statuses of the session's lifecycle path in order, from created to the
    current status, with the first measurement placed among them by its instant.
   */
  lemma TimelineTellsTheLife(
    db: Db, actions: seq<Action>, sid: nat, fetched: seq<Audit>, sessionCreatedAt: int, firstMeter: Option<int>)
    requires Fresh(db) && Exists(Run(db, actions), sid)
    requires LegalFetch(fetched, EntriesOf(Run(db, actions).audit, sid))
    requires StrictlyLater(EntriesOf(Run(db, actions).audit, sid))
    ensures
      var path := ToEvents(EntriesOf(Run(db, actions).audit, sid));
      var timeline := TimelineOf(fetched, sessionCreatedAt, firstMeter);
      && SortedBy(timeline, ByOccurrence())
      && Filter(timeline, NotMeter()) == path
      && Filter(timeline, IsMeter()) == MeterEvents(firstMeter)
      && path != []
      && path[0].kind == created
      && path[|path| - 1].kind == TypeOf(Run(db, actions).sessions[sid].status)
  {
    EverySessionReplays(db, actions);
    var entries := EntriesOf(Run(db, actions).audit, sid);
    var row := Run(db, actions).sessions[sid];
    assert ReplaysTo(entries, row);
    OnlyOneOrder(fetched, entries);
    FetchHasCreated(entries, row, fetched);
    TimelineOfFetch(fetched, sessionCreatedAt, firstMeter);
  }
}
