/** The audit log and the outbox tell the whole life of every session. */
module AuditReplay {
  import opened SessionLifecycle
  import opened Charging
  import opened ChargingEffects

  /** The entries the timeline reads: created and state-changed, of one session, in log order. */
  function EntriesOf(audit: seq<Audit>, sid: nat): seq<Audit> {
    if audit == [] then []
    else
      var last := audit[|audit| - 1];
      var front := EntriesOf(audit[..|audit| - 1], sid);
      if last.session == sid && !last.ChargerDisconnected? then front + [last] else front
  }

  lemma EntriesAppend(audit: seq<Audit>, entry: Audit, sid: nat)
    ensures EntriesOf(audit + [entry], sid)
         == EntriesOf(audit, sid) + (if entry.session == sid && !entry.ChargerDisconnected? then [entry] else [])
  {
  }

  /** Consecutive entries fit: the status found is the status left, and versions only grow. */
  ghost predicate Follows(previous: Audit, entry: Audit) {
    && entry.StateChanged?
    && entry.before.status == previous.after.status
    && previous.after.version <= entry.before.version
    && entry.after.version == entry.before.version + 1
    && Edge(entry.before.status, entry.after.status)
  }

  /** The entries are a path of the lifecycle graph from the creation to the given row. */
  ghost predicate ReplaysTo(entries: seq<Audit>, row: Session) {
    && entries != []
    && entries[0].SessionCreated? && entries[0].after == Mark(PENDING, 1)
    && (forall i :: 0 < i < |entries| ==> Follows(entries[i - 1], entries[i]))
    && entries[|entries| - 1].after.status == row.status
    && entries[|entries| - 1].after.version <= row.version
  }

  /** An outbox event that says the same as an audit entry. */
  ghost predicate Mirrors(entry: Audit, event: Outbox) {
    match entry
    case SessionCreated(sid, after, _) => event == CreatedEvent(sid, after.status, after.version)
    case StateChanged(sid, before, after, _) => event == StateChangedEvent(sid, before.status, after.status, after.version)
    case ChargerDisconnected(sid, after, _) => event == DisconnectedEvent(sid, after.status, after.version)
  }

  ghost predicate LogsAgree(db: Db) {
    && |db.outbox| == |db.audit|
    && (forall i :: 0 <= i < |db.audit| ==> Mirrors(db.audit[i], db.outbox[i]))
  }

  ghost predicate EntriesKnown(db: Db) {
    forall i :: 0 <= i < |db.audit| ==> db.audit[i].session < |db.sessions|
  }

  ghost predicate AllReplay(db: Db) {
    forall sid :: 0 <= sid < |db.sessions| ==> ReplaysTo(EntriesOf(db.audit, sid), db.sessions[sid])
  }

  ghost predicate LogInv(db: Db) {
    LogsAgree(db) && EntriesKnown(db) && AllReplay(db)
  }

  lemma {:induction false} NoEntriesBeforeCreation(audit: seq<Audit>, sid: nat)
    requires forall i :: 0 <= i < |audit| ==> audit[i].session < sid
    ensures EntriesOf(audit, sid) == []
  {
    if audit != [] {
      NoEntriesBeforeCreation(audit[..|audit| - 1], sid);
    }
  }

  lemma CreateKeepsReplay(db: Db, after: Db, user: nat, connector: nat, key: nat, now: int)
    requires LogInv(db) && Creates(db, after, user, connector, key, now)
    ensures LogInv(after)
  {
    var n := |db.sessions|;
    var entry := SessionCreated(n, Mark(PENDING, 1), now);
    NoEntriesBeforeCreation(db.audit, n);
    forall sid | 0 <= sid < |after.sessions| ensures ReplaysTo(EntriesOf(after.audit, sid), after.sessions[sid]) {
      EntriesAppend(db.audit, entry, sid);
    }
  }

  lemma TransitionKeepsReplay(db: Db, after: Db, moved: nat, target: Status, now: int)
    requires LogInv(db) && Transitions(db, after, moved, target, now)
    ensures LogInv(after)
  {
    var row := db.sessions[moved];
    var entry := StateChanged(moved, Mark(row.status, row.version), Mark(target, row.version + 1), now);
    forall sid | 0 <= sid < |after.sessions| ensures ReplaysTo(EntriesOf(after.audit, sid), after.sessions[sid]) {
      EntriesAppend(db.audit, entry, sid);
      if sid == moved {
        var entries := EntriesOf(db.audit, sid);
        assert ReplaysTo(entries, row);
        assert Follows(entries[|entries| - 1], entry);
      }
    }
  }

  lemma TouchKeepsReplay(db: Db, after: Db, moved: nat, now: int)
    requires LogInv(db) && Touches(db, after, moved)
    requires LogsNothing(db, after) || LogsDisconnect(db, after, moved, now)
    ensures LogInv(after)
  {
  }

  function TargetOf(a: Action): Status {
    match a
    case Authorize(_, _) => AUTHORIZED
    case PrepareStart(_, _, _) => STARTING
    case CommitStart(_, _, _) => CHARGING
    case PrepareStop(_, _, _) => STOPPING
    case StopEvent(_, _, _) => STOPPING
    case Complete(_, _, _) => COMPLETED
    case _ => FAILED
  }

  lemma StepKeepsLogs(db: Db, a: Action)
    requires LogInv(db)
    ensures LogInv(Step(db, a))
  {
    var after := Step(db, a);
    StepHasEffect(db, a);
    if after == db || a.ChargePointLost? || a.SetConnectorStatus? {
    } else if a.Create? {
      CreateKeepsReplay(db, after, a.user, a.connector, a.key, a.now);
    } else if a.Meter? {
      TouchKeepsReplay(db, after, a.sid, 0);
    } else if a.Disconnected? {
      TouchKeepsReplay(db, after, a.sid, a.now);
    } else {
      TransitionKeepsReplay(db, after, a.sid, TargetOf(a), a.now);
    }
  }

  /**
    Replay: after any run from fresh tables, every session's created entry followed by its
    state-change entries is a path of the lifecycle graph that ends in the row's status, with growing
    versions, and the outbox holds the same story entry by entry.
   */
  lemma {:induction false} EverySessionReplays(db: Db, actions: seq<Action>)
    requires Fresh(db)
    ensures LogInv(Run(db, actions))
  {
    if actions != [] {
      EverySessionReplays(db, actions[..|actions| - 1]);
      StepKeepsLogs(Run(db, actions[..|actions| - 1]), actions[|actions| - 1]);
    }
  }

  /** Along a replayed path the statuses climb, so no status appears twice and the path is short. */
  lemma {:induction false} PathsClimb(entries: seq<Audit>, row: Session, i: nat, j: nat)
    requires ReplaysTo(entries, row) && i < j < |entries|
    ensures Rank(entries[i].after.status) < Rank(entries[j].after.status)
    ensures entries[i].after.version < entries[j].after.version
    decreases j - i
  {
    assert Follows(entries[j - 1], entries[j]);
    EdgesClimb(entries[j].before.status, entries[j].after.status);
    if i < j - 1 {
      PathsClimb(entries, row, i, j - 1);
    }
  }
}
