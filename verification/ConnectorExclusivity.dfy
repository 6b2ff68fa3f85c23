/** One active session a connector, none on a connector that is offered as available, one session a key. */
module ConnectorExclusivity {
  import opened SessionLifecycle
  import opened Charging
  import opened ChargingEffects

  ghost predicate OneActive(sessions: seq<Session>) {
    forall i, j :: 0 <= i < j < |sessions| && Active(sessions[i].status) && Active(sessions[j].status)
      ==> sessions[i].connector != sessions[j].connector
  }

  ghost predicate AvailableIsFree(db: Db) {
    forall c :: c in db.connectors && db.connectors[c].status == AVAILABLE ==> !HasActiveSession(db.sessions, c)
  }

  lemma UpdateKeepsOneActive(sessions: seq<Session>, i: nat, row: Session)
    requires i < |sessions| && OneActive(sessions)
    requires row.connector == sessions[i].connector && (Active(row.status) ==> Active(sessions[i].status))
    ensures OneActive(sessions[i := row])
    ensures forall c :: HasActiveSession(sessions[i := row], c) ==> HasActiveSession(sessions, c)
    ensures !Active(row.status) && Active(sessions[i].status) ==> !HasActiveSession(sessions[i := row], row.connector)
  {
  }

  /** Does the action touch an existing session? */
  predicate OnSession(a: Action) {
    !a.Create? && !a.ChargePointLost? && !a.SetConnectorStatus?
  }

  lemma EdgeStartsActive(from: Status, to: Status)
    requires Edge(from, to)
    ensures Active(from)
  {
  }

  /** The session table keeps at most one active session a connector under every step there is. */
  lemma StepKeepsOneActive(db: Db, a: Action)
    requires OneActive(db.sessions)
    ensures OneActive(Step(db, a).sessions)
  {
    var after := Step(db, a);
    StepHasEffect(db, a);
    hide Step, OneActive, HasActiveSession;
    if after == db {
    } else if a.Create? {
      CreateKeepsOneActive(db.sessions, after.sessions[|db.sessions|]);
    } else if OnSession(a) {
      var row, next := db.sessions[a.sid], after.sessions[a.sid];
      assert after.sessions == db.sessions[a.sid := next] && next.connector == row.connector;
      assert Active(row.status);
      UpdateKeepsOneActive(db.sessions, a.sid, next);
    }
  }

  lemma CreateKeepsOneActive(sessions: seq<Session>, row: Session)
    requires OneActive(sessions) && !HasActiveSession(sessions, row.connector)
    ensures OneActive(sessions + [row])
  {
  }

  /**
    No connector ever has two active sessions: all transactions, lost charge points and status
    overrides in any order, from tables with no sessions.
   */
  lemma {:induction false} NeverTwoActive(db: Db, actions: seq<Action>)
    requires Fresh(db)
    ensures OneActive(Run(db, actions).sessions)
  {
    if actions != [] {
      NeverTwoActive(db, actions[..|actions| - 1]);
      StepKeepsOneActive(Run(db, actions[..|actions| - 1]), actions[|actions| - 1]);
    }
  }

  /** A user's idempotency key names at most one session. */
  ghost predicate OneSessionAKey(sessions: seq<Session>) {
    forall i, j :: 0 <= i < j < |sessions| && sessions[i].user == sessions[j].user
      ==> sessions[i].key != sessions[j].key
  }

  lemma StepKeepsOneSessionAKey(db: Db, a: Action)
    requires OneSessionAKey(db.sessions)
    ensures OneSessionAKey(Step(db, a).sessions)
  {
    StepHasEffect(db, a);
    if !a.Create? {
      RowsMoveForward(db, a);
    }
  }

  /** However often a creation is repeated, and through whatever wrapper, its key gets one session. */
  lemma {:induction false} NeverTwoSessionsAKey(db: Db, actions: seq<Action>)
    requires Fresh(db)
    ensures OneSessionAKey(Run(db, actions).sessions)
  {
    if actions != [] {
      NeverTwoSessionsAKey(db, actions[..|actions| - 1]);
      StepKeepsOneSessionAKey(Run(db, actions[..|actions| - 1]), actions[|actions| - 1]);
    }
  }

  /** An override that offers a connector while a session still runs on it. */
  ghost predicate OffersBusyConnector(db: Db, a: Action) {
    a.SetConnectorStatus? && a.status == AVAILABLE && a.connector in db.connectors
    && HasActiveSession(db.sessions, a.connector)
  }

  lemma SessionStepKeepsFree(db: Db, a: Action)
    requires OneActive(db.sessions) && AvailableIsFree(db) && OnSession(a)
    requires Step(db, a) != db
    ensures AvailableIsFree(Step(db, a))
  {
    var after := Step(db, a);
    StepHasEffect(db, a);
    var row, next := db.sessions[a.sid], after.sessions[a.sid];
    UpdateKeepsOneActive(db.sessions, a.sid, next);
    forall c | c in after.connectors && after.connectors[c].status == AVAILABLE
      ensures !HasActiveSession(after.sessions, c)
    {
      if c == row.connector && db.connectors[c].status != AVAILABLE {
        assert a.Complete? || a.Fail?;
        EdgeStartsActive(row.status, next.status);
      }
    }
  }

  lemma CreateKeepsFree(db: Db, a: Action)
    requires OneActive(db.sessions) && AvailableIsFree(db) && a.Create?
    requires Step(db, a) != db
    ensures AvailableIsFree(Step(db, a))
  {
  }

  /**
    "An available connector has no active session" survives a step exactly when the step is not an
    override that offers a busy connector.
   */
  lemma AvailableIsFreeUnlessOverridden(db: Db, a: Action)
    requires OneActive(db.sessions) && AvailableIsFree(db)
    ensures AvailableIsFree(Step(db, a)) <==> !OffersBusyConnector(db, a)
  {
    var after := Step(db, a);
    if a.SetConnectorStatus? {
      if OffersBusyConnector(db, a) {
        assert after.connectors[a.connector].status == AVAILABLE;
      }
    } else if after == db {
    } else if a.Create? {
      CreateKeepsFree(db, a);
    } else if OnSession(a) {
      SessionStepKeepsFree(db, a);
    }
  }

  /** Runs of the service itself, without StatusNotification and without the admin override. */
  ghost predicate NoOverrides(actions: seq<Action>) {
    forall i :: 0 <= i < |actions| ==> !actions[i].SetConnectorStatus?
  }

  /** Exclusivity of the service's own steps: a connector offered as available is free. */
  lemma {:induction false} AvailableConnectorsAreFree(db: Db, actions: seq<Action>)
    requires Fresh(db) && NoOverrides(actions)
    ensures AvailableIsFree(Run(db, actions))
  {
    if actions != [] {
      var front := actions[..|actions| - 1];
      AvailableConnectorsAreFree(db, front);
      NeverTwoActive(db, front);
      assert !actions[|actions| - 1].SetConnectorStatus?;
      AvailableIsFreeUnlessOverridden(Run(db, front), actions[|actions| - 1]);
    }
  }

  /**
    So the reservation alone keeps sessions apart: an admissible request for an available connector
    under a new key gets it, and the unique index on active sessions never has to refuse a creation.
   */
  lemma AvailableConnectorsCanBeReserved(
      db: Db, actions: seq<Action>, user: nat, connector: nat, key: nat, admissible: bool, now: int)
    requires Fresh(db) && NoOverrides(actions)
    requires user in Run(db, actions).users && connector in Run(db, actions).connectors
    ensures
      var tables := Run(db, actions);
      CreateTx(tables, user, connector, key, admissible, now).Some? <==>
        admissible && tables.connectors[connector].status == AVAILABLE && !KeyUsed(tables.sessions, user, key)
  {
    AvailableConnectorsAreFree(db, actions);
  }
}
