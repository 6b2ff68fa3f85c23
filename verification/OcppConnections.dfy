/**
  The registry of charge point connections and the connection status rows (`acceptConnection`,
  `handleDisconnect` and `close` in apps/backend/src/ocpp/ocpp16-central-system.service.ts).

  An identity names one charge point, so both are one number here. Sockets are numbered as they are
  accepted. The status writes are not awaited one after the other, so they may land in any order or fail.
 */
module OcppConnections {
  datatype Write = Write(chargePoint: nat, connected: bool)

  /**
    `latest` is the last socket accepted for a charge point, `closed` the sockets whose close event has
    run, `dismissed` those that were registered when the server shut down, `open` those whose
    readyState is OPEN, `losses` the charge points whose disconnect began to be handled.
   */
  datatype State = State(
    sockets: map<nat, nat>, connections: map<nat, nat>, open: set<nat>,
    rows: map<nat, bool>, writes: seq<Write>, losses: seq<nat>,
    latest: map<nat, nat>, closed: set<nat>, dismissed: set<nat>)

  const EMPTY := State(map[], map[], {}, map[], [], [], map[], {}, {})

  datatype Event =
    | Accept(socket: nat, chargePoint: nat)
    | Falter(socket: nat)     // readyState leaves OPEN
    | Close(socket: nat)      // the close event
    | Land(i: nat)            // the i-th outstanding status write reaches the database
    | Fail(i: nat)            // or it fails
    | Shutdown

  function AcceptStep(s: State, socket: nat, cp: nat): State {
    if socket in s.sockets then s
    else s.(
      sockets := s.sockets[socket := cp],
      connections := s.connections[cp := socket],
      open := s.open - (if cp in s.connections then {s.connections[cp]} else {}) + {socket},
      writes := s.writes + [Write(cp, true)],
      latest := s.latest[cp := socket])
  }

  predicate IsRegistered(s: State, socket: nat) {
    && socket in s.sockets
    && s.sockets[socket] in s.connections && s.connections[s.sockets[socket]] == socket
  }

  function CloseStep(s: State, socket: nat): State {
    if socket !in s.sockets || socket in s.closed then s
    else
      var event := s.(closed := s.closed + {socket}, open := s.open - {socket});
      if !IsRegistered(s, socket) then event
      else
        var cp := s.sockets[socket];
        event.(connections := s.connections - {cp}, writes := s.writes + [Write(cp, false)], losses := s.losses + [cp])
  }

  function LandStep(s: State, i: nat): State {
    if i < |s.writes| then
      s.(rows := s.rows[s.writes[i].chargePoint := s.writes[i].connected], writes := s.writes[..i] + s.writes[i + 1..])
    else s
  }

  function FailStep(s: State, i: nat): State {
    if i < |s.writes| then s.(writes := s.writes[..i] + s.writes[i + 1..]) else s
  }

  function ShutdownStep(s: State): State {
    s.(connections := map[], open := s.open - s.connections.Values, dismissed := s.dismissed + s.connections.Values)
  }

  function Next(s: State, e: Event): State {
    match e
    case Accept(socket, cp) => AcceptStep(s, socket, cp)
    case Falter(socket) => s.(open := s.open - {socket})
    case Close(socket) => CloseStep(s, socket)
    case Land(i) => LandStep(s, i)
    case Fail(i) => FailStep(s, i)
    case Shutdown => ShutdownStep(s)
  }

  function Run(s: State, events: seq<Event>): State {
    if events == [] then s else Next(Run(s, events[..|events| - 1]), events[|events| - 1])
  }

  /** `isConnected` */
  predicate IsConnected(s: State, cp: nat) {
    cp in s.connections && s.connections[cp] in s.open
  }

  // ---------------------------------------------------------------- the registry

  /** The last accepted socket of the charge point is neither closed nor dismissed. */
  predicate Alive(s: State, cp: nat) {
    cp in s.latest && s.latest[cp] !in s.closed && s.latest[cp] !in s.dismissed
  }

  ghost predicate Inv(s: State) {
    && (forall cp :: cp in s.connections <==> Alive(s, cp))
    && (forall cp :: cp in s.connections ==> s.connections[cp] == s.latest[cp])
    && (forall cp :: cp in s.latest ==> s.latest[cp] in s.sockets && s.sockets[s.latest[cp]] == cp)
    && s.closed <= s.sockets.Keys && s.dismissed <= s.sockets.Keys
    && (forall socket :: socket in s.open ==> IsRegistered(s, socket))
  }

  lemma AcceptKeepsInv(s: State, socket: nat, cp: nat)
    requires Inv(s)
    ensures Inv(AcceptStep(s, socket, cp))
  {
  }

  lemma CloseKeepsInv(s: State, socket: nat)
    requires Inv(s)
    ensures Inv(CloseStep(s, socket))
  {
  }

  lemma ShutdownKeepsInv(s: State)
    requires Inv(s)
    ensures Inv(ShutdownStep(s))
  {
  }

  lemma NextKeepsInv(s: State, e: Event)
    requires Inv(s)
    ensures Inv(Next(s, e))
  {
    match e
    case Accept(socket, cp) => AcceptKeepsInv(s, socket, cp);
    case Close(socket) => CloseKeepsInv(s, socket);
    case Shutdown => ShutdownKeepsInv(s);
    case Falter(_) =>
    case Land(_) =>
    case Fail(_) =>
  }

  /**
    After any run the registry names, for every charge point, exactly its last accepted socket, for as
    long as that socket has neither closed nor been dismissed; no other socket is open, so no charge
    point ever has two open ones.
   */
  lemma {:induction false} RegistryNamesTheLatest(events: seq<Event>)
    ensures
      var s := Run(EMPTY, events);
      && Inv(s)
      && (forall cp :: cp in s.connections <==> Alive(s, cp))
      && (forall cp :: cp in s.connections ==> s.connections[cp] == s.latest[cp])
      && (forall a, b :: a in s.open && b in s.open && a != b ==> s.sockets[a] != s.sockets[b])
  {
    if events != [] {
      RegistryNamesTheLatest(events[..|events| - 1]);
      NextKeepsInv(Run(EMPTY, events[..|events| - 1]), events[|events| - 1]);
    }
  }

  /** A close event reaches the registry, the rows and the sessions exactly when its socket is the last accepted. */
  lemma ReplacedSocketsCloseQuietly(s: State, socket: nat)
    requires Inv(s) && socket in s.sockets && socket !in s.closed && socket !in s.dismissed
    ensures
      var after := Next(s, Close(socket));
      var latest := s.sockets[socket] in s.latest && s.latest[s.sockets[socket]] == socket;
      && (after.connections == s.connections <==> !latest)
      && (after.writes == s.writes <==> !latest)
      && (after.losses == s.losses <==> !latest)
      && after.rows == s.rows
  {
  }

  // ---------------------------------------------------------------- the rows

  /** What the row of a charge point says after some writes have landed in order. */
  function Final(initial: bool, writes: seq<Write>, cp: nat): bool {
    if writes == [] then initial
    else
      var last := writes[|writes| - 1];
      if last.chargePoint == cp then last.connected else Final(initial, writes[..|writes| - 1], cp)
  }

  predicate Mentions(writes: seq<Write>, cp: nat) {
    exists i :: 0 <= i < |writes| && writes[i].chargePoint == cp
  }

  predicate Shown(rows: map<nat, bool>, cp: nat) {
    cp in rows && rows[cp]
  }

  /** What the row will say when all outstanding writes have landed in order. */
  predicate Outlook(s: State, cp: nat) {
    Final(Shown(s.rows, cp), s.writes, cp)
  }

  predicate RowWillAgree(s: State, cp: nat) {
    Outlook(s, cp) <==> cp in s.connections
  }

  lemma {:induction false} FinalConcat(initial: bool, a: seq<Write>, b: seq<Write>, cp: nat)
    ensures Final(initial, a + b, cp) == Final(Final(initial, a, cp), b, cp)
    decreases |b|
  {
    if b == [] {
      assert a + b == a;
    } else {
      assert (a + b)[..|a + b| - 1] == a + b[..|b| - 1];
      FinalConcat(initial, a, b[..|b| - 1], cp);
    }
  }

  /** Writes of the charge point hide what was there before; other writes do not. */
  lemma {:induction false} FinalForgets(x: bool, y: bool, writes: seq<Write>, cp: nat)
    ensures Mentions(writes, cp) ==> Final(x, writes, cp) == Final(y, writes, cp)
    ensures !Mentions(writes, cp) ==> Final(x, writes, cp) == x
  {
    if writes != [] {
      var n := |writes| - 1;
      FinalForgets(x, y, writes[..n], cp);
      if writes[n].chargePoint != cp {
        assert Mentions(writes, cp) <==> Mentions(writes[..n], cp) by {
          assert forall i :: 0 <= i < n ==> writes[..n][i] == writes[i];
        }
      }
    }
  }

  /**
    A write overtakes: it is the last outstanding one of its charge point, an earlier one is still out,
    and the earlier ones lead to the other value.
   */
  predicate Overtakes(s: State, i: nat, cp: nat) {
    && i < |s.writes| && s.writes[i].chargePoint == cp
    && !Mentions(s.writes[i + 1..], cp) && Mentions(s.writes[..i], cp)
    && Final(Shown(s.rows, cp), s.writes[..i], cp) != s.writes[i].connected
  }

  /** Taking a write out of the middle and applying it first. */
  lemma FirstInsteadOfMiddle(x: bool, a: seq<Write>, w: Write, b: seq<Write>, cp: nat)
    ensures
      var y := if w.chargePoint == cp then w.connected else x;
      Final(y, a + b, cp) == Final(x, a + [w] + b, cp) <==>
        !(w.chargePoint == cp && !Mentions(b, cp) && Mentions(a, cp) && Final(x, a, cp) != w.connected)
  {
    var y := if w.chargePoint == cp then w.connected else x;
    FinalConcat(y, a, b, cp);
    FinalConcat(x, a + [w], b, cp);
    FinalConcat(x, a, [w], cp);
    assert [w][..0] == [] && Final(Final(x, a, cp), [], cp) == Final(x, a, cp);
    FinalForgets(x, y, a, cp);
    FinalForgets(y, x, a, cp);
    FinalForgets(Final(y, a, cp), Final(x, a + [w], cp), b, cp);
    FinalForgets(Final(x, a + [w], cp), Final(y, a, cp), b, cp);
  }

  /** A write that lands, in whatever order, changes the outlook of a charge point exactly when it overtakes. */
  lemma LandingKeepsOutlookIff(s: State, i: nat, cp: nat)
    requires i < |s.writes|
    ensures Outlook(LandStep(s, i), cp) == Outlook(s, cp) <==> !Overtakes(s, i, cp)
  {
    assert s.writes == s.writes[..i] + [s.writes[i]] + s.writes[i + 1..];
    FirstInsteadOfMiddle(Shown(s.rows, cp), s.writes[..i], s.writes[i], s.writes[i + 1..], cp);
  }

  /** A failing write is missed: it is the last outstanding one of its charge point, and the row will not say its value anyway. */
  predicate IsMissed(s: State, i: nat, cp: nat) {
    && i < |s.writes| && s.writes[i].chargePoint == cp
    && !Mentions(s.writes[i + 1..], cp) && Final(Shown(s.rows, cp), s.writes[..i], cp) != s.writes[i].connected
  }

  lemma FailingKeepsOutlookIff(s: State, i: nat, cp: nat)
    requires i < |s.writes|
    ensures Outlook(FailStep(s, i), cp) == Outlook(s, cp) <==> !IsMissed(s, i, cp)
  {
    var x, a, w, b := Shown(s.rows, cp), s.writes[..i], s.writes[i], s.writes[i + 1..];
    assert s.writes == a + [w] + b;
    FinalConcat(x, a, b, cp);
    FinalConcat(x, a + [w], b, cp);
    FinalConcat(x, a, [w], cp);
    assert [w][..0] == [] && Final(Final(x, a, cp), [], cp) == Final(x, a, cp);
    FinalForgets(Final(x, a, cp), Final(x, a + [w], cp), b, cp);
    FinalForgets(Final(x, a + [w], cp), Final(x, a, cp), b, cp);
  }

  /** The ways to lose the agreement of a row: an overtaking write, a missed one, or a shutdown under a connected charge point. */
  predicate Misleads(s: State, e: Event, cp: nat) {
    (e.Land? && Overtakes(s, e.i, cp)) || (e.Fail? && IsMissed(s, e.i, cp)) || (e.Shutdown? && cp in s.connections)
  }

  lemma StepAgreesIff(s: State, e: Event, cp: nat)
    requires RowWillAgree(s, cp)
    ensures RowWillAgree(Next(s, e), cp) <==> !Misleads(s, e, cp)
  {
    match e
    case Accept(socket, other) => FinalConcat(Shown(s.rows, cp), s.writes, [Write(other, true)], cp);
    case Close(socket) =>
      if socket in s.sockets { FinalConcat(Shown(s.rows, cp), s.writes, [Write(s.sockets[socket], false)], cp); }
    case Land(i) => if i < |s.writes| { LandingKeepsOutlookIff(s, i, cp); }
    case Fail(i) => if i < |s.writes| { FailingKeepsOutlookIff(s, i, cp); }
    case Falter(_) =>
    case Shutdown =>
  }

  ghost predicate NeverMisled(events: seq<Event>, cp: nat) {
    events != [] ==>
      && NeverMisled(events[..|events| - 1], cp)
      && !Misleads(Run(EMPTY, events[..|events| - 1]), events[|events| - 1], cp)
  }

  /** The row of a charge point is on its way to the truth at every moment of a run. */
  ghost predicate AlwaysAgrees(events: seq<Event>, cp: nat) {
    RowWillAgree(Run(EMPTY, events), cp) && (events != [] ==> AlwaysAgrees(events[..|events| - 1], cp))
  }

  /**
    A connection row stays on its way to what the registry says, through a whole run and whatever order
    the writes land in, exactly when none of its writes overtakes or is missed and no shutdown finds it
    connected. It then says so whenever none of its writes is outstanding.
   */
  lemma {:induction false} RowsAgreeWithTheRegistryIff(events: seq<Event>, cp: nat)
    ensures AlwaysAgrees(events, cp) <==> NeverMisled(events, cp)
    ensures
      var s := Run(EMPTY, events);
      AlwaysAgrees(events, cp) && !Mentions(s.writes, cp) ==> (Shown(s.rows, cp) <==> cp in s.connections)
  {
    if events != [] {
      var front, e := events[..|events| - 1], events[|events| - 1];
      RowsAgreeWithTheRegistryIff(front, cp);
      if AlwaysAgrees(front, cp) {
        StepAgreesIff(Run(EMPTY, front), e, cp);
      }
    }
    FinalForgets(Shown(Run(EMPTY, events).rows, cp), true, Run(EMPTY, events).writes, cp);
  }

  /** Six steps from nothing: a reconnect whose write overtakes that of the disconnect. */
  function Reconnect(cp: nat): seq<Event> {
    [Accept(1, cp), Land(0), Close(1), Accept(2, cp), Land(1), Land(0)]
  }

  lemma RunAppend(s: State, events: seq<Event>, e: Event)
    ensures Run(s, events + [e]) == Next(Run(s, events), e)
  {
    assert (events + [e])[..|events|] == events;
  }

  /** Afterwards the charge point is connected, nothing is outstanding, and the row shows it as disconnected. */
  lemma LateDisconnectHidesTheReconnect(cp: nat)
    ensures
      var after := Run(EMPTY, Reconnect(cp));
      IsConnected(after, cp) && after.writes == [] && !Shown(after.rows, cp)
  {
    var up, back := [Accept(1, cp), Land(0)], [Accept(1, cp), Land(0), Close(1), Accept(2, cp)];
    RunAppend(EMPTY, [], Accept(1, cp));
    RunAppend(EMPTY, [Accept(1, cp)], Land(0));
    assert Run(EMPTY, up).writes == [] && Run(EMPTY, up).connections == map[cp := 1];
    RunAppend(EMPTY, up, Close(1));
    RunAppend(EMPTY, up + [Close(1)], Accept(2, cp));
    assert up + [Close(1)] + [Accept(2, cp)] == back;
    assert Run(EMPTY, back).writes == [Write(cp, false), Write(cp, true)];
    RunAppend(EMPTY, back, Land(1));
    RunAppend(EMPTY, back + [Land(1)], Land(0));
    assert back + [Land(1)] + [Land(0)] == Reconnect(cp);
  }

  // ---------------------------------------------------------------- shutdown

  ghost predicate Undisturbed(s: State, events: seq<Event>, cp: nat) {
    events != [] ==>
      var front, e := events[..|events| - 1], events[|events| - 1];
      && Undisturbed(s, front, cp)
      && (e.Accept? ==> e.chargePoint != cp)
      && (e.Land? ==> !Overtakes(Run(s, front), e.i, cp))
      && (e.Fail? ==> !IsMissed(Run(s, front), e.i, cp))
  }

  lemma QuietStep(s: State, e: Event, cp: nat)
    requires cp !in s.connections
    requires e.Accept? ==> e.chargePoint != cp
    requires e.Land? ==> !Overtakes(s, e.i, cp)
    requires e.Fail? ==> !IsMissed(s, e.i, cp)
    ensures cp !in Next(s, e).connections && Outlook(Next(s, e), cp) == Outlook(s, cp)
  {
    match e
    case Accept(socket, other) => FinalConcat(Shown(s.rows, cp), s.writes, [Write(other, true)], cp);
    case Close(socket) =>
      if socket in s.sockets { FinalConcat(Shown(s.rows, cp), s.writes, [Write(s.sockets[socket], false)], cp); }
    case Land(i) => if i < |s.writes| { LandingKeepsOutlookIff(s, i, cp); }
    case Fail(i) => if i < |s.writes| { FailingKeepsOutlookIff(s, i, cp); }
    case Falter(_) =>
    case Shutdown =>
  }

  /**
    A shutdown clears the registry before the sockets close, so the close events find nothing to report:
    until a charge point connects again, its row ends up as connected exactly when it was connected at
    the shutdown, whatever closes later.
   */
  lemma {:induction false} ShutdownFreezesTheRows(s: State, events: seq<Event>, cp: nat)
    requires RowWillAgree(s, cp) && Undisturbed(ShutdownStep(s), events, cp)
    ensures cp !in Run(ShutdownStep(s), events).connections
    ensures Outlook(Run(ShutdownStep(s), events), cp) <==> cp in s.connections
  {
    if events != [] {
      var front, e := events[..|events| - 1], events[|events| - 1];
      ShutdownFreezesTheRows(s, front, cp);
      QuietStep(Run(ShutdownStep(s), front), e, cp);
    }
  }

  // ---------------------------------------------------------------- single events

  /** An accepted socket is the registered and only open one of its charge point, and its write is on the way. */
  lemma AcceptedSocketIsConnected(s: State, socket: nat, cp: nat)
    requires Inv(s) && socket !in s.sockets
    ensures
      var after := Next(s, Accept(socket, cp));
      && IsConnected(after, cp) && after.connections == s.connections[cp := socket]
      && after.writes == s.writes + [Write(cp, true)] && after.rows == s.rows && after.losses == s.losses
      && (forall other :: other in after.open <==> other == socket || (other in s.open && s.sockets[other] != cp))
  {
  }

  /** A registered socket that closes takes its charge point with it: registry, row and sessions. */
  lemma ClosedSocketIsLost(s: State, socket: nat)
    requires Inv(s) && IsRegistered(s, socket) && socket !in s.closed
    ensures
      var after, cp := Next(s, Close(socket)), s.sockets[socket];
      && !IsConnected(after, cp) && after.connections == s.connections - {cp} && after.open == s.open - {socket}
      && after.writes == s.writes + [Write(cp, false)] && after.losses == s.losses + [cp] && after.rows == s.rows
  {
  }

  /** A socket that falters is registered still, but its charge point counts as disconnected. */
  lemma FalteringDisconnects(s: State, socket: nat)
    requires Inv(s) && IsRegistered(s, socket)
    ensures
      var after := Next(s, Falter(socket));
      && !IsConnected(after, s.sockets[socket]) && after == s.(open := after.open)
      && (forall other :: other in after.open <==> other in s.open && other != socket)
  {
  }

  /** A write that lands sets the row of its charge point to its value, one that fails sets none. */
  lemma WritesLandOrFail(s: State, i: nat)
    requires i < |s.writes|
    ensures
      var landed, failed := Next(s, Land(i)), Next(s, Fail(i));
      && landed.rows == s.rows[s.writes[i].chargePoint := s.writes[i].connected]
      && failed.rows == s.rows
      && landed.writes == failed.writes == s.writes[..i] + s.writes[i + 1..]
  {
  }
}
