/**
  How a refresh ends for the requests that wait for it (`refreshTokens` and the retry of `request` in
  apps/mobile-driver/src/api/rest-api.ts).
 */
module RefreshOutcomes {
  import opened Common
  import opened RestClient
  import opened RefreshReuse
  import S = TokenFamilies

  // ---------------------------------------------------------------- over every run

  /** The refresh stores the tokens it was issued, both of them. */
  predicate Saves(c: Client, e: Event, task: nat) {
    e == Save(task, true, true) && task in c.tasks && c.tasks[task].phase.Saving?
  }

  ghost predicate HasSaved(events: seq<Event>, task: nat) {
    events != [] &&
      var front, e := events[..|events| - 1], events[|events| - 1];
      HasSaved(front, task) || Saves(Run(EMPTY, front).client, e, task)
  }

  predicate Succeeds(c: Client, task: nat) {
    TaskIs(c, task, Leaving(true)) || TaskIs(c, task, Done(true))
  }

  lemma SavingSucceedsInAStep(s: State, e: Event, task: nat)
    ensures Succeeds(Next(s, e).client, task) <==> Succeeds(s.client, task) || Saves(s.client, e, task)
  {
  }

  /** In every run a refresh ends well if and only if it stored the tokens it was issued. */
  lemma {:induction false} SucceedsIffSaved(events: seq<Event>, task: nat)
    ensures Succeeds(Run(EMPTY, events).client, task) <==> HasSaved(events, task)
  {
    if events != [] {
      SucceedsIffSaved(events[..|events| - 1], task);
      SavingSucceedsInAStep(Run(EMPTY, events[..|events| - 1]), events[|events| - 1], task);
      hide Next, Saves, Succeeds;
    }
  }

  /**
    In every run a request that waits for a refresh goes out again when it resumes if and only if that
    refresh stored its tokens; it fails if and only if that refresh has ended otherwise.
   */
  lemma ResumesIffSaved(events: seq<Event>, request: nat)
    requires var c := Run(EMPTY, events).client; request in c.requests && c.requests[request].Joining?
    ensures
      var c := Run(EMPTY, events).client;
      var after := Run(EMPTY, events + [Resume(request)]).client;
      var task := c.requests[request].task;
      && task in c.tasks && request in c.sends && request in after.requests && request in after.sends
      && (c.tasks[task].phase.Done? && HasSaved(events, task) <==>
            after.requests[request] == Sent(false) && after.sends[request] == c.sends[request] + 1)
      && (c.tasks[task].phase.Done? && !HasSaved(events, task) <==> after.requests[request] == Failed)
      && (!c.tasks[task].phase.Done? ==> after == c)
  {
    var task := Run(EMPTY, events).client.requests[request].task;
    SucceedsIffSaved(events, task);
    RequestsGoOutTwiceAtMost(events, request);
    JoinersKnowTheirTask(events, request);
    RunAppend(EMPTY, events, Resume(request));
  }

  predicate KnowsItsTask(c: Client, request: nat) {
    request in c.requests && c.requests[request].Joining? ==> c.requests[request].task in c.tasks
  }

  lemma {:induction false} JoinersKnowTheirTask(events: seq<Event>, request: nat)
    ensures KnowsItsTask(Run(EMPTY, events).client, request)
  {
    if events != [] {
      var front, e := events[..|events| - 1], events[|events| - 1];
      JoinersKnowTheirTask(front, request);
      OneRefreshInFlight(front);
      StepKeepsKnowing(Run(EMPTY, front), e, request);
    }
  }

  lemma StepKeepsKnowing(s: State, e: Event, request: nat)
    requires SingleFlight(s.client) && KnowsItsTask(s.client, request)
    ensures KnowsItsTask(Next(s, e).client, request)
  {
  }

  // ---------------------------------------------------------------- what a refresh stores

  /** A task that is about to store tokens stores those the server issued to it. */
  ghost predicate SavesItsOwn(s: State) {
    forall task :: task in s.client.tasks && s.client.tasks[task].phase.Saving? ==>
      task in s.server.threads && s.server.threads[task] == S.Issued(s.client.tasks[task].phase.next)
  }

  lemma ServerKeepsIssued(s: State, e: Event, task: nat)
    requires task in s.server.threads && s.server.threads[task].Issued?
    ensures task in Next(s, e).server.threads && Next(s, e).server.threads[task] == s.server.threads[task]
  {
  }

  lemma SavingBeganOrArrives(s: State, e: Event, task: nat)
    requires task in Next(s, e).client.tasks && Next(s, e).client.tasks[task].phase.Saving?
    ensures
      || (task in s.client.tasks && s.client.tasks[task].phase == Next(s, e).client.tasks[task].phase)
      || (e == Receive(task) && task in s.server.threads
          && s.server.threads[task] == S.Issued(Next(s, e).client.tasks[task].phase.next))
  {
  }

  lemma StepSavesItsOwn(s: State, e: Event)
    requires SavesItsOwn(s)
    ensures SavesItsOwn(Next(s, e))
  {
    forall task | task in Next(s, e).client.tasks && Next(s, e).client.tasks[task].phase.Saving?
      ensures task in Next(s, e).server.threads
      ensures Next(s, e).server.threads[task] == S.Issued(Next(s, e).client.tasks[task].phase.next)
    {
      SavingBeganOrArrives(s, e, task);
      ServerKeepsIssued(s, e, task);
      hide Next;
    }
  }

  lemma {:induction false} EveryRefreshSavesItsOwn(events: seq<Event>)
    ensures SavesItsOwn(Run(EMPTY, events))
  {
    if events != [] {
      EveryRefreshSavesItsOwn(events[..|events| - 1]);
      StepSavesItsOwn(Run(EMPTY, events[..|events| - 1]), events[|events| - 1]);
    }
  }

  /** A 401 fails the second try, joins the refresh in flight, or starts one and joins that. */
  lemma UnauthorizedIsAnswered(s: State, request: nat, task: nat)
    requires request in s.client.requests && s.client.requests[request].Sent?
    requires task !in s.client.tasks && task !in s.server.threads
    ensures
      var c, after := s.client, Next(s, Unauthorized(request, task));
      && after.server == s.server
      && (!c.requests[request].retry ==> after.client == c.(requests := c.requests[request := Failed]))
      && (c.requests[request].retry && c.promise.Some? ==>
            after.client == c.(requests := c.requests[request := Joining(c.promise.value)]))
      && (c.requests[request].retry && c.promise.None? ==>
            after.client == c.(tasks := c.tasks[task := Task(Reading, None)], promise := Some(task),
                               requests := c.requests[request := Joining(task)]))
  {
  }

  // ---------------------------------------------------------------- whole requests

  /** A signed-in client at rest: its token is live at the server, request and refresh are new. */
  predicate AtRest(s: State, request: nat, task: nat) {
    && s.client.promise.None? && request !in s.client.requests
    && task !in s.client.tasks && task !in s.server.threads
  }

  /** A request that is refused for its access token, up to the refresh that has read the stored token. */
  function Refused(request: nat, task: nat): seq<Event> {
    [Send(request), Unauthorized(request, task)] + [ReadStored(task)]
  }

  function Refreshing(c: Client, request: nat, task: nat, phase: Phase, token: Option<nat>): Client {
    c.(tasks := c.tasks[task := Task(phase, token)], promise := Some(task),
       requests := c.requests[request := Joining(task)], sends := c.sends[request := 1])
  }

  lemma RefusedRun(s: State, request: nat, task: nat)
    requires AtRest(s, request, task)
    ensures Run(s, Refused(request, task)) == s.(client :=
      if s.client.stored.None? then Refreshing(s.client, request, task, Leaving(false), None)
      else Refreshing(s.client, request, task, Posting, s.client.stored)
             .(presented := s.client.presented + {s.client.stored.value}))
  {
    RunTwo(s, [], Send(request), Unauthorized(request, task));
    RunAppend(s, [Send(request), Unauthorized(request, task)], ReadStored(task));
    assert [] + [Send(request), Unauthorized(request, task)] == [Send(request), Unauthorized(request, task)];
    JoiningStep(s, request, task);
    ReadingStep(s.client, request, task);
  }

  lemma JoiningStep(s: State, request: nat, task: nat)
    requires AtRest(s, request, task)
    ensures Next(Next(s, Send(request)), Unauthorized(request, task))
         == s.(client := Refreshing(s.client, request, task, Reading, None))
  {
  }

  lemma ReadingStep(c: Client, request: nat, task: nat)
    ensures ReadStoredStep(Refreshing(c, request, task, Reading, None), task) ==
      if c.stored.None? then Refreshing(c, request, task, Leaving(false), None)
      else Refreshing(c, request, task, Posting, c.stored).(presented := c.presented + {c.stored.value})
  {
  }

  /** The promise settles and the request that waits for it resumes. */
  function Settling(request: nat, task: nat): seq<Event> {
    [Leave(task), Resume(request)]
  }

  /** The client after a refresh for one request has ended. */
  function Settled(c: Client, request: nat, task: nat, ok: bool, token: Option<nat>): Client {
    c.(tasks := c.tasks[task := Task(Done(ok), token)], promise := None,
       requests := c.requests[request := if ok then Sent(false) else Failed],
       sends := c.sends[request := if ok then 2 else 1])
  }

  lemma SettlingRun(s: State, before: seq<Event>, c: Client, request: nat, task: nat, ok: bool, token: Option<nat>)
    requires Run(s, before).client == Refreshing(c, request, task, Leaving(ok), token)
    ensures Run(s, before + Settling(request, task)) == Run(s, before).(client := Settled(c, request, task, ok, token))
  {
    RunTwo(s, before, Leave(task), Resume(request));
    LeavingStep(c, request, task, ok, token);
    hide Run;
  }

  lemma LeavingStep(c: Client, request: nat, task: nat, ok: bool, token: Option<nat>)
    ensures ResumeStep(LeaveStep(Refreshing(c, request, task, Leaving(ok), token), task), request)
         == Settled(c, request, task, ok, token)
  {
    var left := LeaveStep(Refreshing(c, request, task, Leaving(ok), token), task);
    assert left == Refreshing(c, request, task, Done(ok), token).(promise := None);
  }

  /** At the server and back: the token is rotated and the next one arrives. */
  function Rotation(task: nat, next: nat): seq<Event> {
    [ServerReads(task, true), ServerRotates(task, next)] + [Receive(task), Save(task, true, true)]
  }

  function Rotated(server: S.State, task: nat, id: nat, next: nat): S.State
    requires id in server.tokens && server.tokens[id].family in server.chains
  {
    var family, user := server.tokens[id].family, server.tokens[id].user;
    server.(tokens := server.tokens[next := S.Token(family, user, false, None)]
                                   [id := S.Token(family, user, true, Some(next))],
            threads := server.threads[task := S.Issued(next)],
            chains := server.chains[family := server.chains[family] + [next]])
  }

  lemma RotationSteps(s: State, task: nat, id: nat, next: nat)
    requires task in s.client.tasks && s.client.tasks[task].token == Some(id) && task !in s.server.threads
    requires S.Live(s.server, id) && s.server.tokens[id].family in s.server.chains && next !in s.server.tokens
    ensures Next(Next(s, ServerReads(task, true)), ServerRotates(task, next))
         == State(Rotated(s.server, task, id, next), s.client.(mine := s.client.mine + {next}))
  {
  }

  lemma SavingSteps(s: State, c: Client, request: nat, task: nat, token: nat, next: nat)
    requires s.client == Refreshing(c, request, task, Posting, Some(token))
    requires task in s.server.threads && s.server.threads[task] == S.Issued(next)
    ensures Next(Next(s, Receive(task)), Save(task, true, true))
         == s.(client := Refreshing(c, request, task, Leaving(true), Some(token)).(stored := Some(next)))
  {
    assert Next(s, Receive(task)).client == Refreshing(c, request, task, Saving(next), Some(token));
  }

  lemma RotationRun(s: State, before: seq<Event>, c: Client, request: nat, task: nat, id: nat, next: nat)
    requires Run(s, before).client == Refreshing(c, request, task, Posting, Some(id))
    requires
      var server := Run(s, before).server;
      && task !in server.threads && S.Live(server, id) && server.tokens[id].family in server.chains
      && next !in server.tokens
    ensures Run(s, before + Rotation(task, next))
         == State(Rotated(Run(s, before).server, task, id, next),
                  Refreshing(c, request, task, Leaving(true), Some(id)).(stored := Some(next), mine := c.mine + {next}))
  {
    var read := before + [ServerReads(task, true), ServerRotates(task, next)];
    RunTwo(s, before, ServerReads(task, true), ServerRotates(task, next));
    RunTwo(s, read, Receive(task), Save(task, true, true));
    assert before + Rotation(task, next) == read + [Receive(task), Save(task, true, true)];
    RotationSteps(Run(s, before), task, id, next);
    assert Run(s, read).client == Refreshing(c.(mine := c.mine + {next}), request, task, Posting, Some(id));
    SavingSteps(Run(s, read), c.(mine := c.mine + {next}), request, task, id, next);
    hide Run, Next;
  }

  /**
    Undisturbed, a request that is refused for its access token goes out again with new tokens: the one
    stored before is rotated into the one stored now.
   */
  lemma RefreshedRequestGoesOutAgain(s: State, request: nat, task: nat, id: nat, next: nat)
    requires AtRest(s, request, task) && s.client.stored == Some(id)
    requires S.Live(s.server, id) && s.server.tokens[id].family in s.server.chains && next !in s.server.tokens
    ensures
      var after := Run(s, Refused(request, task) + Rotation(task, next) + Settling(request, task));
      && after.server == Rotated(s.server, task, id, next)
      && request in after.client.requests && after.client.requests[request] == Sent(false)
      && request in after.client.sends && after.client.sends[request] == 2
      && after.client.stored == Some(next) && after.client.promise == None
  {
    var c := s.client.(presented := s.client.presented + {id});
    var refused, rotated := Refused(request, task), Refused(request, task) + Rotation(task, next);
    RefusedRun(s, request, task);
    assert Run(s, refused).client == Refreshing(c, request, task, Posting, Some(id));
    RotationRun(s, refused, c, request, task, id, next);
    var saved := c.(stored := Some(next), mine := c.mine + {next});
    assert Run(s, rotated).client == Refreshing(saved, request, task, Leaving(true), Some(id));
    SettlingRun(s, rotated, saved, request, task, true, Some(id));
    hide Run, Next, Rotated;
  }

  /** Undisturbed, without a stored token the request fails and nothing is posted. */
  lemma SignedOutRequestFails(s: State, request: nat, task: nat)
    requires AtRest(s, request, task) && s.client.stored == None
    ensures Run(s, Refused(request, task) + Settling(request, task))
         == s.(client := Settled(s.client, request, task, false, None))
  {
    RefusedRun(s, request, task);
    SettlingRun(s, Refused(request, task), s.client, request, task, false, None);
  }

  lemma ClearingStep(c: Client, request: nat, task: nat, id: nat)
    ensures ClearStep(Refreshing(c, request, task, Clearing, Some(id)), task, true)
         == Refreshing(c.(stored := None), request, task, Leaving(false), Some(id))
    ensures ToTask(Refreshing(c, request, task, Posting, Some(id)), task, Clearing)
         == Refreshing(c, request, task, Clearing, Some(id))
  {
  }

  lemma LosingSteps(s: State, c: Client, request: nat, task: nat, id: nat)
    requires s.client == Refreshing(c, request, task, Posting, Some(id))
    ensures Next(Next(s, Lose(task)), Clear(task, true)).client
         == Refreshing(c.(stored := None), request, task, Leaving(false), Some(id))
  {
    ClearingStep(c, request, task, id);
  }

  /** Undisturbed, a refresh whose response is lost signs the client out and fails the request. */
  lemma LostRefreshSignsOut(s: State, request: nat, task: nat, id: nat)
    requires AtRest(s, request, task) && s.client.stored == Some(id)
    ensures Run(s, Refused(request, task) + [Lose(task), Clear(task, true)] + Settling(request, task)).client
         == Settled(s.client.(stored := None, presented := s.client.presented + {id}), request, task, false, Some(id))
  {
    var c := s.client.(presented := s.client.presented + {id});
    var refused := Refused(request, task);
    RefusedRun(s, request, task);
    assert Run(s, refused).client == Refreshing(c, request, task, Posting, Some(id));
    RunTwo(s, refused, Lose(task), Clear(task, true));
    LosingSteps(Run(s, refused), c, request, task, id);
    SettlingRun(s, refused + [Lose(task), Clear(task, true)], c.(stored := None), request, task, false, Some(id));
    hide Run, Next, Refused, Settling, Settled;
  }

  /** The server reads a token that is not usable. */
  function Refusal(task: nat): seq<Event> {
    [ServerReads(task, false), ServerKills(task)] + [Receive(task), Clear(task, true)]
  }

  /** A token that is not usable is refused, whether it is live, revoked or unknown. */
  lemma RefusingSteps(s: State, task: nat, id: nat)
    requires task in s.client.tasks && s.client.tasks[task].token == Some(id) && task !in s.server.threads
    ensures
      var after := Next(Next(s, ServerReads(task, false)), ServerKills(task));
      after.client == s.client && task in after.server.threads && after.server.threads[task].Rejected?
  {
  }

  lemma RejectedStep(s: State, c: Client, request: nat, task: nat, id: nat)
    requires s.client == Refreshing(c, request, task, Posting, Some(id))
    requires task in s.server.threads && s.server.threads[task].Rejected?
    ensures Next(Next(s, Receive(task)), Clear(task, true)).client
         == Refreshing(c.(stored := None), request, task, Leaving(false), Some(id))
  {
    ClearingStep(c, request, task, id);
  }

  /** Undisturbed, a refresh that the server refuses signs the client out and fails the request. */
  lemma RefusedRefreshSignsOut(s: State, request: nat, task: nat, id: nat)
    requires AtRest(s, request, task) && s.client.stored == Some(id)
    ensures Run(s, Refused(request, task) + Refusal(task) + Settling(request, task)).client
         == Settled(s.client.(stored := None, presented := s.client.presented + {id}), request, task, false, Some(id))
  {
    var c := s.client.(presented := s.client.presented + {id});
    var refused := Refused(request, task);
    var read := refused + [ServerReads(task, false), ServerKills(task)];
    RefusedRun(s, request, task);
    assert Run(s, refused).client == Refreshing(c, request, task, Posting, Some(id));
    RunTwo(s, refused, ServerReads(task, false), ServerKills(task));
    RunTwo(s, read, Receive(task), Clear(task, true));
    assert read + [Receive(task), Clear(task, true)] == refused + Refusal(task);
    RefusingSteps(Run(s, refused), task, id);
    RejectedStep(Run(s, read), c, request, task, id);
    SettlingRun(s, refused + Refusal(task), c.(stored := None), request, task, false, Some(id));
    hide Run, Next, Refused, Settling, Settled;
  }
}
