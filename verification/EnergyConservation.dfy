/** Every user's total is the sum over that user's completed sessions. */
module EnergyConservation {
  import opened SessionLifecycle
  import opened Charging
  import opened ChargingEffects

  function Share(session: Session, user: nat): int {
    if session.status == COMPLETED && session.user == user then session.energyWh else 0
  }

  /** The energy of the completed sessions of one user. */
  function Billed(sessions: seq<Session>, user: nat): int {
    if sessions == [] then 0
    else Billed(sessions[..|sessions| - 1], user) + Share(sessions[|sessions| - 1], user)
  }

  lemma {:induction false} BilledUpdate(sessions: seq<Session>, i: nat, row: Session, user: nat)
    requires i < |sessions|
    ensures Billed(sessions[i := row], user) == Billed(sessions, user) - Share(sessions[i], user) + Share(row, user)
  {
    var n := |sessions| - 1;
    if i == n {
      assert sessions[i := row][..n] == sessions[..n];
    } else {
      assert sessions[i := row][..n] == sessions[..n][i := row];
      BilledUpdate(sessions[..n], i, row, user);
    }
  }

  /** What a user was credited beyond the completed sessions; zero for tables kept from the start. */
  function Unexplained(db: Db, user: nat): int
    requires user in db.users
  {
    db.users[user] - Billed(db.sessions, user)
  }

  lemma StepConserves(db: Db, a: Action, user: nat)
    requires user in db.users
    ensures user in Step(db, a).users
    ensures Unexplained(Step(db, a), user) == Unexplained(db, user)
  {
    var after := Step(db, a);
    StepHasEffect(db, a);
    if after == db {
    } else if a.Create? {
      assert after.sessions[..|db.sessions|] == db.sessions;
    } else if !a.ChargePointLost? && !a.SetConnectorStatus? {
      BilledUpdate(db.sessions, a.sid, after.sessions[a.sid], user);
    }
  }

  /**
    Conservation: over any run of transactions, with any stale snapshots, duplicates and failures, a
    user's total moves by exactly the energy of the sessions that the run completed.
   */
  lemma {:induction false} EnergyIsConserved(db: Db, actions: seq<Action>, user: nat)
    requires user in db.users
    ensures user in Run(db, actions).users
    ensures Run(db, actions).users[user] - db.users[user]
         == Billed(Run(db, actions).sessions, user) - Billed(db.sessions, user)
  {
    if actions != [] {
      EnergyIsConserved(db, actions[..|actions| - 1], user);
      StepConserves(Run(db, actions[..|actions| - 1]), actions[|actions| - 1], user);
    }
  }

  /** From fresh tables the total is the initial value plus the sum over the completed sessions. */
  lemma TotalsAreSums(db: Db, actions: seq<Action>, user: nat)
    requires Fresh(db) && user in db.users
    ensures user in Run(db, actions).users
    ensures Run(db, actions).users[user] == db.users[user] + Billed(Run(db, actions).sessions, user)
  {
    EnergyIsConserved(db, actions, user);
    assert Billed(db.sessions, user) == 0;
  }

  /** Completing a completed session again, by whatever route and meter, changes nothing at all. */
  lemma RepeatedStopsAreFree(db: Db, sid: nat, meterStopWh: int, user: nat, known: Session, now: int)
    requires Exists(db, sid) && db.sessions[sid].status == COMPLETED
    ensures Step(db, Complete(sid, meterStopWh, now)) == db
    ensures Step(db, PrepareStop(sid, user, now)) == db
    ensures Step(db, StopEvent(sid, known, now)) == db
    ensures Step(db, Fail(sid, false, now)) == db && Step(db, Fail(sid, true, now)) == db
  {
  }

  /**
    The first completion credits the meter difference, never less than nothing, and is the only one of
    the two racing completions that does.
   */
  lemma CompletionCreditsOnce(db: Db, sid: nat, first: int, second: int, t1: int, t2: int)
    requires Exists(db, sid) && db.sessions[sid].status == STOPPING
    requires db.sessions[sid].connector in db.connectors && db.sessions[sid].user in db.users
    ensures
      var session := db.sessions[sid];
      var after := Step(Step(db, Complete(sid, first, t1)), Complete(sid, second, t2));
      && after == Step(db, Complete(sid, first, t1))
      && after.sessions[sid].status == COMPLETED
      && after.users[session.user] == db.users[session.user] + BilledEnergy(session, first)
      && after.sessions[sid].energyWh == BilledEnergy(session, first) >= 0
      && (session.meterStartWh.Some? && first >= session.meterStartWh.value ==>
            BilledEnergy(session, first) == first - session.meterStartWh.value)
  {
  }
}
