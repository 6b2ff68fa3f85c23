/** When the server takes an honest client for a thief, and what else can happen to its session. */
module RefreshReuse {
  import opened Common
  import S = TokenFamilies
  import opened RestClient

  /** Every revoked token of the client was revoked by its own rotation. */
  ghost predicate Whole(mine: set<nat>, tokens: map<nat, S.Token>) {
    forall id :: id in mine && id in tokens && tokens[id].revoked ==> tokens[id].replacedBy.Some?
  }

  /** No thread is about to kill a family of the client. */
  ghost predicate NoKillers(mine: set<nat>, tokens: map<nat, S.Token>, threads: map<nat, S.Thread>) {
    forall x, a :: x in threads && threads[x].Killing? && a in mine && a in tokens ==> tokens[a].family != threads[x].family
  }

  ghost predicate Untouched(s: State) {
    Whole(s.client.mine, s.server.tokens) && NoKillers(s.client.mine, s.server.tokens, s.server.threads)
  }

  /** Somebody else revokes a live token of the client: an administrator, or a revocation of all its user's tokens. */
  ghost predicate Withdraws(s: State, e: Event) {
    && e.Others?
    && match e.e
       case RevokeOne(id) => id in s.client.mine && S.Live(s.server, id)
       case RevokeAll(user) => exists id :: id in s.client.mine && S.Live(s.server, id) && s.server.tokens[id].user == user
       case _ => false
  }

  /** The tokens of the client keep families, and are revoked only by rotation. */
  ghost predicate Spared(mine: set<nat>, tokens: map<nat, S.Token>, after: map<nat, S.Token>) {
    forall id :: id in mine && id in tokens ==>
      id in after && after[id].family == tokens[id].family
      && (after[id].revoked ==> tokens[id].revoked || after[id].replacedBy.Some?)
      && (tokens[id].replacedBy.Some? ==> after[id].replacedBy.Some?)
  }

  lemma SparedStaysWhole(mine: set<nat>, tokens: map<nat, S.Token>, after: map<nat, S.Token>)
    requires Whole(mine, tokens) && Spared(mine, tokens, after) && mine <= tokens.Keys
    ensures Whole(mine, after)
  {
  }

  lemma SparedHasNoKillers(mine: set<nat>, tokens: map<nat, S.Token>, after: map<nat, S.Token>, threads: map<nat, S.Thread>)
    requires NoKillers(mine, tokens, threads) && Spared(mine, tokens, after) && mine <= tokens.Keys
    ensures NoKillers(mine, after, threads)
  {
  }

  lemma LoginSpares(s: State, id: nat, family: nat, user: nat)
    requires Inv(s) && Untouched(s)
    ensures Untouched(s.(server := S.LoginStep(s.server, id, family, user)))
  {
  }

  /** Reading spares the client unless it is the client's own token and that was revoked as such. */
  lemma ReadSpares(s: State, thread: nat, id: nat, genuine: bool, usable: bool)
    requires Inv(s) && Untouched(s)
    requires id in s.client.mine ==> id in s.server.tokens && s.server.tokens[id].replacedBy.None?
    ensures Untouched(s.(server := S.ReadStep(s.server, thread, id, genuine, usable)))
  {
  }

  lemma FewerKillers(mine: set<nat>, tokens: map<nat, S.Token>, threads: map<nat, S.Thread>, after: map<nat, S.Thread>)
    requires NoKillers(mine, tokens, threads)
    requires forall x :: x in after && after[x].Killing? ==> x in threads && threads[x] == after[x]
    ensures NoKillers(mine, tokens, after)
  {
  }

  lemma KillIsSparing(mine: set<nat>, server: S.State, thread: nat)
    requires NoKillers(mine, server.tokens, server.threads)
    ensures Spared(mine, server.tokens, S.KillStep(server, thread).tokens)
  {
  }

  lemma KillSpares(s: State, thread: nat)
    requires Inv(s) && Untouched(s)
    ensures Untouched(s.(server := S.KillStep(s.server, thread)))
  {
    var server := S.KillStep(s.server, thread);
    KillIsSparing(s.client.mine, s.server, thread);
    SparedStaysWhole(s.client.mine, s.server.tokens, server.tokens);
    SparedHasNoKillers(s.client.mine, s.server.tokens, server.tokens, s.server.threads);
    FewerKillers(s.client.mine, server.tokens, s.server.threads, server.threads);
  }

  lemma RotateIsSparing(mine: set<nat>, server: S.State, thread: nat, next: nat)
    ensures Spared(mine, server.tokens, S.RotateStep(server, thread, next).tokens)
  {
  }

  lemma RotateSpares(s: State, thread: nat, next: nat)
    requires Inv(s) && Untouched(s)
    ensures Untouched(s.(server := S.RotateStep(s.server, thread, next)))
  {
    var server := S.RotateStep(s.server, thread, next);
    RotateIsSparing(s.client.mine, s.server, thread, next);
    SparedStaysWhole(s.client.mine, s.server.tokens, server.tokens);
    SparedHasNoKillers(s.client.mine, s.server.tokens, server.tokens, s.server.threads);
    FewerKillers(s.client.mine, server.tokens, s.server.threads, server.threads);
  }

  lemma RevokingOneSparesIff(s: State, id: nat)
    requires Inv(s) && Untouched(s)
    ensures Untouched(s.(server := S.Next(s.server, S.RevokeOne(id)))) <==> !Withdraws(s, Others(S.RevokeOne(id)))
  {
  }

  lemma RevokingAllSparesIff(s: State, user: nat)
    requires Inv(s) && Untouched(s)
    ensures Untouched(s.(server := S.Next(s.server, S.RevokeAll(user)))) <==> !Withdraws(s, Others(S.RevokeAll(user)))
  {
    var after := S.RevokedAll(s.server.tokens, user);
    if Withdraws(s, Others(S.RevokeAll(user))) {
      var id :| id in s.client.mine && S.Live(s.server, id) && s.server.tokens[id].user == user;
      LiveHasNoSuccessor(s.server, id);
      assert after[id].revoked && after[id].replacedBy.None?;
    } else {
      forall id | id in s.client.mine && id in s.server.tokens
        ensures after[id].revoked ==> s.server.tokens[id].revoked
      {
        assert S.Live(s.server, id) ==> s.server.tokens[id].user != user;
      }
      SparedStaysWhole(s.client.mine, s.server.tokens, after);
      SparedHasNoKillers(s.client.mine, s.server.tokens, after, s.server.threads);
    }
  }

  lemma LiveHasNoSuccessor(server: S.State, id: nat)
    requires S.Inv(server) && S.Live(server, id)
    ensures server.tokens[id].replacedBy.None?
  {
  }

  /** A token issued to the client is live and belongs to no family that is being killed. */
  lemma GainSpares(s: State, next: Client, id: nat)
    requires Untouched(s) && next.mine == s.client.mine + {id}
    requires S.Live(s.server, id)
    requires forall x :: x in s.server.threads && s.server.threads[x].Killing? ==>
      s.server.threads[x].family != s.server.tokens[id].family
    ensures Untouched(s.(client := next))
  {
  }

  lemma SignInSpares(s: State, login: nat, id: nat, family: nat, user: nat)
    requires Inv(s) && Untouched(s)
    ensures Untouched(SignInStep(s, login, id, family, user))
  {
  }

  lemma ServerRotatesSpares(s: State, task: nat, next: nat)
    requires Inv(s) && Untouched(s)
    ensures Untouched(ServerRotatesStep(s, task, next))
  {
    if MayRotate(s, task, next) {
      RotateSpares(s, task, next);
      RotationsEndings(s, task, next);
      if Wins(s.server, task) {
        RotatesItsOwn(s.server, s.client, task);
        var rotated := s.(server := S.RotateStep(s.server, task, next));
        var id := s.server.threads[task].id;
        assert rotated.server.tokens[id].family == rotated.server.tokens[next].family;
        GainSpares(rotated, s.client.(mine := s.client.mine + {next}), next);
      }
    }
  }

  lemma ServerReadsSpares(s: State, task: nat, usable: bool)
    requires Inv(s) && Untouched(s)
    ensures Untouched(ServerReadsStep(s, task, usable))
  {
  }

  lemma OthersSpareIff(s: State, f: S.Event)
    requires Inv(s) && Untouched(s)
    ensures Untouched(OthersStep(s, f)) <==> !Withdraws(s, Others(f))
  {
    if Foreign(s, f) {
      match f
      case Login(id, family, user) => LoginSpares(s, id, family, user);
      case Read(thread, id, genuine, usable) => ReadSpares(s, thread, id, genuine, usable);
      case Kill(thread) => KillSpares(s, thread);
      case Rotate(thread, next) => RotateSpares(s, thread, next);
      case RevokeOne(id) => RevokingOneSparesIff(s, id);
      case RevokeAll(user) => RevokingAllSparesIff(s, user);
    }
  }

  lemma SameTokensSpare(s: State, next: Client)
    requires Untouched(s) && next.mine == s.client.mine
    ensures Untouched(s.(client := next))
  {
  }

  lemma ClientSpares(s: State, e: Event)
    requires Untouched(s) && OfClient(e)
    ensures Untouched(Next(s, e))
  {
    assert ClientStep(s.client, e).mine == s.client.mine;
    SameTokensSpare(s, ClientStep(s.client, e));
  }

  lemma RepliesSpare(s: State, request: nat, task: nat)
    requires Untouched(s)
    ensures Untouched(ReceiveStep(s, task)) && Untouched(RefreshStep(s, request, task))
  {
  }

  lemma ServerKillsSpares(s: State, task: nat)
    requires Inv(s) && Untouched(s)
    ensures Untouched(ServerKillsStep(s, task))
  {
  }

  /** The client stays untouched by a step exactly when nobody else revokes a live token of it there. */
  lemma StepSparesIff(s: State, e: Event)
    requires Inv(s) && Untouched(s)
    ensures Untouched(Next(s, e)) <==> !Withdraws(s, e)
  {
    if OfClient(e) {
      ClientSpares(s, e);
    } else {
      match e
      case Others(f) => OthersSpareIff(s, f);
      case SignIn(login, id, family, user) => SignInSpares(s, login, id, family, user);
      case ServerReads(task, usable) => ServerReadsSpares(s, task, usable);
      case ServerKills(task) => ServerKillsSpares(s, task);
      case ServerRotates(task, next) => ServerRotatesSpares(s, task, next);
      case Receive(task) => RepliesSpare(s, 0, task);
      case Unauthorized(request, task) => RepliesSpare(s, request, task);
    }
  }

  ghost predicate NeverWithdrawn(events: seq<Event>) {
    events != [] ==>
      && NeverWithdrawn(events[..|events| - 1])
      && !Withdraws(Run(EMPTY, events[..|events| - 1]), events[|events| - 1])
  }

  ghost predicate OwnsFamily(s: State, family: nat) {
    exists id :: id in s.client.mine && id in s.server.tokens && s.server.tokens[id].family == family
  }

  /**
    In any run in which nobody else revokes a live token of the client, and no token is posted twice,
    reuse is never detected in one of its families, whoever refreshes and whatever responses are lost.
   */
  lemma {:induction false} ReuseIsNeverDetected(events: seq<Event>)
    requires NeverWithdrawn(events) && NeverRepeats(events)
    ensures Untouched(Run(EMPTY, events))
    ensures forall x :: x in Run(EMPTY, events).server.threads && Run(EMPTY, events).server.threads[x].Killing? ==>
              !OwnsFamily(Run(EMPTY, events), Run(EMPTY, events).server.threads[x].family)
  {
    if events != [] {
      ReuseIsNeverDetected(events[..|events| - 1]);
      InvHolds(events[..|events| - 1]);
      StepSparesIff(Run(EMPTY, events[..|events| - 1]), events[|events| - 1]);
    }
  }

  // ---------------------------------------------------------------- refreshes that cross a sign-in or sign-out

  lemma StoredChangesIff(s: State, e: Event)
    ensures s.client.stored.None? ==> (Next(s, e).client.stored.Some? <==> Stores(s.client, e))
    ensures s.client.stored.Some? ==> (Next(s, e).client.stored.None? <==> Deletes(s.client, e))
  {
  }

  ghost predicate NeverStores(s: State, events: seq<Event>) {
    events != [] ==>
      NeverStores(s, events[..|events| - 1]) && !Stores(Run(s, events[..|events| - 1]).client, events[|events| - 1])
  }

  ghost predicate NeverDeletes(s: State, events: seq<Event>) {
    events != [] ==>
      NeverDeletes(s, events[..|events| - 1]) && !Deletes(Run(s, events[..|events| - 1]).client, events[|events| - 1])
  }

  /** At every moment of the run tokens are stored, or at none. */
  ghost predicate Stays(s: State, events: seq<Event>, signedIn: bool) {
    && Run(s, events).client.stored.Some? == signedIn
    && (events != [] ==> Stays(s, events[..|events| - 1], signedIn))
  }

  /** A sign-out lasts exactly until a sign-in or a refresh writes tokens, a session until one deletes them. */
  lemma {:induction false} SignOutAndSessionLastIff(s: State, events: seq<Event>)
    ensures s.client.stored.None? ==> (Stays(s, events, false) <==> NeverStores(s, events))
    ensures s.client.stored.Some? ==> (Stays(s, events, true) <==> NeverDeletes(s, events))
  {
    if events != [] {
      SignOutAndSessionLastIff(s, events[..|events| - 1]);
      StoredChangesIff(Run(s, events[..|events| - 1]), events[|events| - 1]);
    }
  }

  /** No refresh is out or has tokens to store. */
  ghost predicate NothingArrives(c: Client) {
    forall task :: task in c.tasks ==> !c.tasks[task].phase.Posting? && !c.tasks[task].phase.Saving?
  }

  predicate SignsIn(c: Client, e: Event) {
    e.SignedIn? && e.written && e.login in c.logins
  }

  ghost predicate NeverSignsIn(s: State, events: seq<Event>) {
    events != [] ==>
      NeverSignsIn(s, events[..|events| - 1]) && !SignsIn(Run(s, events[..|events| - 1]).client, events[|events| - 1])
  }

  lemma StillNothingArrives(s: State, e: Event)
    requires s.client.stored.None? && NothingArrives(s.client) && !SignsIn(s.client, e)
    ensures Next(s, e).client.stored.None? && NothingArrives(Next(s, e).client)
  {
  }

  /** A sign-out that no refresh crosses lasts exactly until somebody signs in. */
  lemma {:induction false} UncrossedSignOutLastsIff(s: State, events: seq<Event>)
    requires s.client.stored.None? && NothingArrives(s.client)
    ensures Stays(s, events, false) <==> NeverSignsIn(s, events)
    ensures NeverSignsIn(s, events) ==> NothingArrives(Run(s, events).client)
  {
    if events != [] {
      var front, e := events[..|events| - 1], events[|events| - 1];
      UncrossedSignOutLastsIff(s, front);
      if Stays(s, front, false) {
        StoredChangesIff(Run(s, front), e);
        if !SignsIn(Run(s, front).client, e) {
          StillNothingArrives(Run(s, front), e);
        }
      }
    }
  }

  // ---------------------------------------------------------------- runs from nothing

  lemma RunAppend(s: State, events: seq<Event>, e: Event)
    ensures Run(s, events + [e]) == Next(Run(s, events), e)
  {
    assert (events + [e])[..|events|] == events;
  }

  lemma RunTwo(s: State, events: seq<Event>, e: Event, f: Event)
    ensures Run(s, events + [e, f]) == Next(Next(Run(s, events), e), f)
  {
    hide Run, Next;
    var first := events + [e];
    assert first + [f] == events + [e, f];
    RunAppend(s, events, e);
    RunAppend(s, first, f);
  }

  /** Somebody signs in, a request meets a 401, and the refresh posts the stored token. */
  function Posting(user: nat): seq<Event> {
    [SignIn(1, 10, 20, user), SignedIn(1, true), Send(1), Unauthorized(1, 1), ReadStored(1)]
  }

  function Posted(user: nat): State {
    State(S.State(map[10 := S.Token(20, user, false, None)], map[], map[20 := [10]]),
          Client(Some(10), Some(1), map[1 := Task(Phase.Posting, Some(10))], map[1 := Joining(1)], map[1 := 1], map[], {10}, {10}))
  }

  lemma SigningIn(user: nat)
    ensures
      Next(Next(EMPTY, SignIn(1, 10, 20, user)), SignedIn(1, true))
        == State(Posted(user).server, Client(Some(10), None, map[], map[], map[], map[], {10}, {}))
  {
    var s := Next(Next(EMPTY, SignIn(1, 10, 20, user)), SignedIn(1, true));
    assert s.client.logins == map[] && s.client.mine == {10};
  }

  lemma StartingToRefresh(s: S.State)
    requires s.threads == map[]
    ensures
      Next(Next(State(s, Client(Some(10), None, map[], map[], map[], map[], {10}, {})), Send(1)), Unauthorized(1, 1))
        == State(s, Client(Some(10), Some(1), map[1 := Task(Reading, None)], map[1 := Joining(1)], map[1 := 1], map[], {10}, {}))
  {
  }

  lemma PostingPosts(user: nat)
    ensures Run(EMPTY, Posting(user)) == Posted(user)
  {
    hide Next;
    var events := Posting(user);
    RunTwo(EMPTY, [], events[0], events[1]);
    RunTwo(EMPTY, events[..2], events[2], events[3]);
    RunAppend(EMPTY, events[..4], events[4]);
    assert [] + [events[0], events[1]] == events[..2] && events[..2] + [events[2], events[3]] == events[..4];
    assert events[..4] + [events[4]] == events;
    SigningIn(user);
    StartingToRefresh(Posted(user).server);
    ReadingPosts(Posted(user).server);
  }

  lemma ReadingPosts(s: S.State)
    ensures
      var c := Client(Some(10), Some(1), map[1 := Task(Reading, None)], map[1 := Joining(1)], map[1 := 1], map[], {10}, {});
      Next(State(s, c), ReadStored(1))
        == State(s, Client(Some(10), Some(1), map[1 := Task(Phase.Posting, Some(10))], map[1 := Joining(1)], map[1 := 1], map[], {10}, {10}))
  {
  }

  /** The server has rotated the token. */
  function Rotated(user: nat): State {
    State(S.State(map[10 := S.Token(20, user, true, Some(11)), 11 := S.Token(20, user, false, None)],
                  map[1 := S.Issued(11)], map[20 := [10, 11]]),
          Posted(user).client.(mine := {10, 11}))
  }

  lemma Rotates(user: nat)
    ensures Next(Next(Posted(user), ServerReads(1, true)), ServerRotates(1, 11)) == Rotated(user)
  {
    var read := Next(Posted(user), ServerReads(1, true));
    assert read == Posted(user).(server := Posted(user).server.(threads := map[1 := S.Rotating(10, S.Token(20, user, false, None))]));
    var rotated := S.RotateStep(read.server, 1, 11);
    assert [10] + [11] == [10, 11] && rotated.chains == map[20 := [10, 11]];
    assert rotated.tokens == Rotated(user).server.tokens && rotated.threads == Rotated(user).server.threads;
    assert {10} + {11} == {10, 11};
  }

  function Rotating(user: nat): seq<Event> {
    Posting(user) + [ServerReads(1, true), ServerRotates(1, 11)]
  }

  lemma RotatingRotates(user: nat)
    ensures Run(EMPTY, Rotating(user)) == Rotated(user)
  {
    hide Posting, Posted, Rotated, Next;
    PostingPosts(user);
    Rotates(user);
    RunTwo(EMPTY, Posting(user), ServerReads(1, true), ServerRotates(1, 11));
  }

  /** A sign-out between the arrival of rotated tokens and their storing is undone: the session is back. */
  lemma SignOutIsUndone(user: nat)
    ensures
      var events := Rotating(user) + [Receive(1), SignOut(true)];
      && Run(EMPTY, events).client.stored.None?
      && Run(EMPTY, events + [Save(1, true, true)]).client.stored == Some(11)
      && S.Live(Run(EMPTY, events + [Save(1, true, true)]).server, 11)
  {
    hide Rotating, Run;
    RotatingRotates(user);
    RunTwo(EMPTY, Rotating(user), Receive(1), SignOut(true));
    RunAppend(EMPTY, Rotating(user) + [Receive(1), SignOut(true)], Save(1, true, true));
  }

  lemma NewSessionIsDropped(user: nat)
    ensures
      var s := Next(Next(Posted(user), SignIn(2, 12, 21, user)), SignedIn(2, true));
      var after := Next(Next(s, Lose(1)), Clear(1, true));
      s.client.stored == Some(12) && after.client.stored.None? && S.Live(after.server, 12)
  {
    SigningInAgain(Posted(user), user);
    FailingClears(Next(Next(Posted(user), SignIn(2, 12, 21, user)), SignedIn(2, true)));
    hide Next, S.Live;
  }

  lemma SigningInAgain(s: State, user: nat)
    requires 2 !in s.client.logins && 12 !in s.server.tokens && 21 !in s.server.chains
    ensures
      var after := Next(Next(s, SignIn(2, 12, 21, user)), SignedIn(2, true));
      after.client.stored == Some(12) && after.client.tasks == s.client.tasks && S.Live(after.server, 12)
  {
  }

  lemma FailingClears(s: State)
    requires TaskIs(s.client, 1, Phase.Posting)
    ensures
      var after := Next(Next(s, Lose(1)), Clear(1, true));
      after.client.stored.None? && after.server == s.server
  {
  }

  /** A sign-in while a refresh is out is undone when that refresh fails: its clear drops the new session's token. */
  lemma FailedRefreshDropsANewSession(user: nat)
    ensures
      var events := Posting(user) + [SignIn(2, 12, 21, user), SignedIn(2, true)];
      && Run(EMPTY, events).client.stored == Some(12)
      && Run(EMPTY, events + [Lose(1), Clear(1, true)]).client.stored.None?
      && S.Live(Run(EMPTY, events + [Lose(1), Clear(1, true)]).server, 12)
  {
    hide Posting, Run, Next, S.Live;
    PostingPosts(user);
    NewSessionIsDropped(user);
    RunTwo(EMPTY, Posting(user), SignIn(2, 12, 21, user), SignedIn(2, true));
    RunTwo(EMPTY, Posting(user) + [SignIn(2, 12, 21, user), SignedIn(2, true)], Lose(1), Clear(1, true));
  }

  /** The response of the rotation is lost, and deleting the posted token fails. */
  function LeavingBehind(user: nat): seq<Event> {
    Rotating(user) + [Lose(1), Clear(1, false)]
  }

  lemma LeftBehind(user: nat)
    ensures
      Run(EMPTY, LeavingBehind(user))
        == Rotated(user).(client := Rotated(user).client.(tasks := map[1 := Task(Leaving(false), Some(10))]))
    ensures Lingers(LeavingBehind(user))
  {
    hide Rotating, Run;
    RotatingRotates(user);
    RunAppend(EMPTY, Rotating(user), Lose(1));
    RunTwo(EMPTY, Rotating(user), Lose(1), Clear(1, false));
    assert LeavingBehind(user)[..|LeavingBehind(user)| - 1] == Rotating(user) + [Lose(1)];
  }

  /** The next 401 posts it again. */
  function PostingTwice(user: nat): seq<Event> {
    LeavingBehind(user) + [Leave(1), Send(2)] + [Unauthorized(2, 2), ReadStored(2)] + [ServerReads(2, true), ServerKills(2)]
  }

  lemma PostsAgain(user: nat)
    ensures
      var left := Rotated(user).(client := Rotated(user).client.(tasks := map[1 := Task(Leaving(false), Some(10))]));
      var s := Next(Next(Next(Next(left, Leave(1)), Send(2)), Unauthorized(2, 2)), ReadStored(2));
      && s.server == Rotated(user).server && s.client.mine == {10, 11}
      && s.client.tasks == map[1 := Task(Done(false), Some(10)), 2 := Task(Phase.Posting, Some(10))]
  {
    var left := Rotated(user).(client := Rotated(user).client.(tasks := map[1 := Task(Leaving(false), Some(10))]));
    hide Next;
    LeavesAndSends(left);
    PostsTheSameToken(Next(Next(left, Leave(1)), Send(2)));
  }

  lemma LeavesAndSends(s: State)
    requires s.client.tasks == map[1 := Task(Leaving(false), Some(10))] && 2 !in s.client.requests
    ensures
      var sent := Next(Next(s, Leave(1)), Send(2));
      && sent.server == s.server && sent.client.stored == s.client.stored && sent.client.mine == s.client.mine
      && sent.client.tasks == map[1 := Task(Done(false), Some(10))] && sent.client.promise.None?
      && 2 in sent.client.requests && sent.client.requests[2] == Sent(true)
  {
  }

  lemma PostsTheSameToken(s: State)
    requires s.client.tasks == map[1 := Task(Done(false), Some(10))] && s.client.promise.None? && s.client.stored == Some(10)
    requires 2 in s.client.requests && s.client.requests[2] == Sent(true) && 2 !in s.server.threads
    ensures
      var posted := Next(Next(s, Unauthorized(2, 2)), ReadStored(2));
      && posted.server == s.server && posted.client.mine == s.client.mine
      && posted.client.tasks == map[1 := Task(Done(false), Some(10)), 2 := Task(Phase.Posting, Some(10))]
  {
  }

  lemma ReuseKills(s: State, user: nat)
    requires s.server == Rotated(user).server && s.client.mine == {10, 11}
    requires s.client.tasks == map[1 := Task(Done(false), Some(10)), 2 := Task(Phase.Posting, Some(10))]
    ensures
      var killed := Next(Next(s, ServerReads(2, true)), ServerKills(2));
      killed.client == s.client && S.Dead(killed.server, 20) && OwnsFamily(killed, 20)
  {
    var read := Next(s, ServerReads(2, true));
    assert read.server.threads[2] == S.Killing(20);
    var killed := Next(read, ServerKills(2));
    assert 10 in killed.client.mine && killed.server.tokens[10].family == 20;
  }

  /**
    Then reuse is detected although nobody but the client was there: the token is posted twice, and the
    session it belongs to, whose rotated token was live, is gone.
   */
  lemma FailedClearKillsTheSession(user: nat)
    ensures
      var s := Run(EMPTY, PostingTwice(user));
      && 1 in s.client.tasks && 2 in s.client.tasks && s.client.tasks[1].token == s.client.tasks[2].token == Some(10)
      && S.Dead(s.server, 20) && OwnsFamily(s, 20)
    ensures NeverWithdrawn(PostingTwice(user))
  {
    ClientIsAlone(user);
    hide LeavingBehind, PostingTwice, Run, Next, Rotated, OwnsFamily, S.Dead, NeverWithdrawn;
    RunsOn(user);
    PostsAgain(user);
    ReuseKills(Run(EMPTY, LeavingBehind(user) + [Leave(1), Send(2)] + [Unauthorized(2, 2), ReadStored(2)]), user);
  }

  lemma RunsOn(user: nat)
    ensures
      var left := Rotated(user).(client := Rotated(user).client.(tasks := map[1 := Task(Leaving(false), Some(10))]));
      var posted := LeavingBehind(user) + [Leave(1), Send(2)] + [Unauthorized(2, 2), ReadStored(2)];
      && Run(EMPTY, posted) == Next(Next(Next(Next(left, Leave(1)), Send(2)), Unauthorized(2, 2)), ReadStored(2))
      && Run(EMPTY, PostingTwice(user)) == Next(Next(Run(EMPTY, posted), ServerReads(2, true)), ServerKills(2))
  {
    hide LeavingBehind, Run, Next, Rotated;
    var left := LeavingBehind(user);
    LeftBehind(user);
    RunTwo(EMPTY, left, Leave(1), Send(2));
    RunTwo(EMPTY, left + [Leave(1), Send(2)], Unauthorized(2, 2), ReadStored(2));
    RunTwo(EMPTY, left + [Leave(1), Send(2)] + [Unauthorized(2, 2), ReadStored(2)], ServerReads(2, true), ServerKills(2));
  }

  lemma ClientIsAlone(user: nat)
    ensures NeverWithdrawn(PostingTwice(user))
  {
    AloneIsNeverWithdrawn(PostingTwice(user));
  }

  lemma {:induction false} AloneIsNeverWithdrawn(events: seq<Event>)
    requires forall i :: 0 <= i < |events| ==> !events[i].Others?
    ensures NeverWithdrawn(events)
  {
    if events != [] {
      AloneIsNeverWithdrawn(events[..|events| - 1]);
      assert !events[|events| - 1].Others?;
    }
  }
}
