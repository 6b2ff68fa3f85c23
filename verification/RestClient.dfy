/**
  The mobile client's single-flight refresh (`RestClient.request` and `refreshTokens` in
  apps/mobile-driver/src/api/rest-api.ts, storage and sign-in in token-storage.ts and AuthProvider.tsx)
  together with the server's token families.

  One client holds its tokens alone; all other parties log in, refresh with tokens of their own and
  revoke as they like. Responses may be lost at any time, the server going on regardless. Writing and
  deleting tokens may fail; access token and refresh token are two items, so a failed write may have
  stored the refresh token all the same.
 */
module RestClient {
  import opened Common
  import S = TokenFamilies

  /** The body of one `refreshPromise`. Its number is also the number of the server's thread for it. */
  datatype Phase =
    | Reading              // before the stored token is read
    | Posting              // the request is out
    | Saving(next: nat)    // tokens arrived, not stored yet
    | Clearing             // something failed, tokens not deleted yet
    | Leaving(ok: bool)    // `finally` has not run
    | Done(ok: bool)

  datatype Task = Task(phase: Phase, token: Option<nat>)

  datatype Request = Sent(retry: bool) | Joining(task: nat) | Answered | Failed

  /**
    `stored` is the refresh token in secure storage, `promise` the field refreshPromise, `logins` the
    sign-in responses on their way. `mine` are all tokens ever issued to this client, `presented` those
    it has posted, `sends` how often a request went out.
   */
  datatype Client = Client(
    stored: Option<nat>, promise: Option<nat>, tasks: map<nat, Task>, requests: map<nat, Request>,
    sends: map<nat, nat>, logins: map<nat, nat>, mine: set<nat>, presented: set<nat>)

  datatype State = State(server: S.State, client: Client)

  const NEW_CLIENT := Client(None, None, map[], map[], map[], map[], {}, {})
  const EMPTY := State(S.EMPTY, NEW_CLIENT)

  datatype Event =
    | Others(e: S.Event)
    | SignIn(login: nat, id: nat, family: nat, user: nat)
    | SignedIn(login: nat, written: bool)
    | SignOut(deleted: bool)
    | Send(request: nat)
    | Unauthorized(request: nat, task: nat)
    | Answer(request: nat, ok: bool)
    | Resume(request: nat)
    | ReadStored(task: nat)
    | ServerReads(task: nat, usable: bool)
    | ServerKills(task: nat)
    | ServerRotates(task: nat, next: nat)
    | Receive(task: nat)
    | Lose(task: nat)
    | Save(task: nat, written: bool, ok: bool)
    | Clear(task: nat, deleted: bool)
    | Leave(task: nat)

  // ---------------------------------------------------------------- the client's steps

  predicate TaskIs(c: Client, task: nat, phase: Phase) {
    task in c.tasks && c.tasks[task].phase == phase
  }

  function ToTask(c: Client, task: nat, phase: Phase): Client
    requires task in c.tasks
  {
    c.(tasks := c.tasks[task := c.tasks[task].(phase := phase)])
  }

  /** A 401: join the refresh in flight or start one, unless this was the second try. */
  function UnauthorizedStep(c: Client, request: nat, task: nat): Client {
    if request in c.requests && c.requests[request].Sent? then
      if !c.requests[request].retry then c.(requests := c.requests[request := Failed])
      else if c.promise.Some? then c.(requests := c.requests[request := Joining(c.promise.value)])
      else if task in c.tasks then c
      else c.(tasks := c.tasks[task := Task(Reading, None)], promise := Some(task),
              requests := c.requests[request := Joining(task)])
    else c
  }

  function ResumeStep(c: Client, request: nat): Client {
    if request in c.requests && c.requests[request].Joining? && c.requests[request].task in c.tasks
       && c.tasks[c.requests[request].task].phase.Done? && request in c.sends then
      if c.tasks[c.requests[request].task].phase.ok then
        c.(requests := c.requests[request := Sent(false)], sends := c.sends[request := c.sends[request] + 1])
      else c.(requests := c.requests[request := Failed])
    else c
  }

  function ReadStoredStep(c: Client, task: nat): Client {
    if TaskIs(c, task, Reading) then
      if c.stored.None? then ToTask(c, task, Leaving(false))
      else c.(tasks := c.tasks[task := Task(Posting, c.stored)], presented := c.presented + {c.stored.value})
    else c
  }

  /** `setTokens`: it succeeds when both items are written. */
  function SaveStep(c: Client, task: nat, written: bool, ok: bool): Client {
    if task in c.tasks && c.tasks[task].phase.Saving? then
      ToTask(c, task, if written && ok then Leaving(true) else Clearing)
        .(stored := if written then Some(c.tasks[task].phase.next) else c.stored)
    else c
  }

  /** `clearTokens`: the refresh fails either way. */
  function ClearStep(c: Client, task: nat, deleted: bool): Client {
    if TaskIs(c, task, Clearing) then ToTask(c, task, Leaving(false)).(stored := if deleted then None else c.stored) else c
  }

  function LeaveStep(c: Client, task: nat): Client {
    if task in c.tasks && c.tasks[task].phase.Leaving? then
      ToTask(c, task, Done(c.tasks[task].phase.ok)).(promise := None)
    else c
  }

  /** Steps that do not involve the server. */
  function ClientStep(c: Client, e: Event): Client {
    match e
    case SignedIn(login, written) =>
      if login in c.logins then
        c.(stored := if written then Some(c.logins[login]) else c.stored, logins := c.logins - {login})
      else c
    case SignOut(deleted) => c.(stored := if deleted then None else c.stored)
    case Send(request) =>
      if request in c.requests then c
      else c.(requests := c.requests[request := Sent(true)], sends := c.sends[request := 1])
    case Answer(request, ok) =>
      if request in c.requests && c.requests[request].Sent? then
        c.(requests := c.requests[request := if ok then Answered else Failed]) else c
    case Resume(request) => ResumeStep(c, request)
    case ReadStored(task) => ReadStoredStep(c, task)
    case Lose(task) => if TaskIs(c, task, Posting) then ToTask(c, task, Clearing) else c
    case Save(task, written, ok) => SaveStep(c, task, written, ok)
    case Clear(task, deleted) => ClearStep(c, task, deleted)
    case Leave(task) => LeaveStep(c, task)
    case _ => c
  }

  // ---------------------------------------------------------------- client and server

  function SignInStep(s: State, login: nat, id: nat, family: nat, user: nat): State {
    if login in s.client.logins || id in s.server.tokens || family in s.server.chains then s
    else State(S.LoginStep(s.server, id, family, user),
               s.client.(logins := s.client.logins[login := id], mine := s.client.mine + {id}))
  }

  /** The request of a task reaches the server, once. */
  function ServerReadsStep(s: State, task: nat, usable: bool): State {
    if task in s.client.tasks && s.client.tasks[task].token.Some? && task !in s.server.threads then
      s.(server := S.ReadStep(s.server, task, s.client.tasks[task].token.value, true, usable))
    else s
  }

  function ServerRotatesStep(s: State, task: nat, next: nat): State {
    if task in s.client.tasks && task in s.server.threads && s.server.threads[task].Rotating? && next !in s.server.tokens then
      var rotated := S.RotateStep(s.server, task, next);
      State(rotated, s.client.(mine := s.client.mine + (if next in rotated.tokens then {next} else {})))
    else s
  }

  /** The response: tokens, or an error. */
  function ReceiveStep(s: State, task: nat): State {
    if TaskIs(s.client, task, Posting) && task in s.server.threads then
      match s.server.threads[task]
      case Issued(next) => s.(client := ToTask(s.client, task, Saving(next)))
      case Rejected => s.(client := ToTask(s.client, task, Clearing))
      case _ => s
    else s
  }

  /** What the other parties may do: anything but presenting a token of this client or moving its threads. */
  predicate Foreign(s: State, e: S.Event) {
    match e
    case Read(thread, id, _, _) => id !in s.client.mine && thread !in s.client.tasks
    case Kill(thread) => thread !in s.client.tasks
    case Rotate(thread, _) => thread !in s.client.tasks
    case _ => true
  }

  function OthersStep(s: State, f: S.Event): State {
    if Foreign(s, f) then s.(server := S.Next(s.server, f)) else s
  }

  function ServerKillsStep(s: State, task: nat): State {
    if task in s.client.tasks then s.(server := S.KillStep(s.server, task)) else s
  }

  /** A new refresh has a number of its own. */
  function RefreshStep(s: State, request: nat, task: nat): State {
    if task in s.server.threads then s else s.(client := UnauthorizedStep(s.client, request, task))
  }

  /** Steps the client takes by itself. */
  predicate OfClient(e: Event) {
    || e.SignedIn? || e.SignOut? || e.Send? || e.Answer? || e.Resume?
    || e.ReadStored? || e.Lose? || e.Save? || e.Clear? || e.Leave?
  }

  predicate OfServer(e: Event) {
    e.Others? || e.ServerReads? || e.ServerKills? || e.ServerRotates?
  }

  /** Steps of the server, for this client or for others. */
  function ServerStep(s: State, e: Event): State {
    match e
    case Others(f) => OthersStep(s, f)
    case ServerReads(task, usable) => ServerReadsStep(s, task, usable)
    case ServerKills(task) => ServerKillsStep(s, task)
    case ServerRotates(task, next) => ServerRotatesStep(s, task, next)
    case _ => s
  }

  /** Steps in which client and server meet. */
  function MeetingStep(s: State, e: Event): State {
    match e
    case SignIn(login, id, family, user) => SignInStep(s, login, id, family, user)
    case Receive(task) => ReceiveStep(s, task)
    case Unauthorized(request, task) => RefreshStep(s, request, task)
    case _ => s
  }

  function Next(s: State, e: Event): State {
    if OfClient(e) then s.(client := ClientStep(s.client, e))
    else if OfServer(e) then ServerStep(s, e)
    else MeetingStep(s, e)
  }

  function Run(s: State, events: seq<Event>): State {
    if events == [] then s else Next(Run(s, events[..|events| - 1]), events[|events| - 1])
  }

  // ---------------------------------------------------------------- one refresh, two tries

  predicate InFlight(phase: Phase) {
    !phase.Done?
  }

  ghost predicate SingleFlight(c: Client) {
    && (forall task :: task in c.tasks && InFlight(c.tasks[task].phase) ==> c.promise == Some(task))
    && (c.promise.Some? ==> c.promise.value in c.tasks && InFlight(c.tasks[c.promise.value].phase))
    && (forall task :: task in c.tasks && c.tasks[task].phase.Reading? ==> c.tasks[task].token.None?)
  }

  predicate SentTwiceAtMost(c: Client, request: nat) {
    request in c.requests ==>
      && request in c.sends
      && 1 <= c.sends[request] <= 2
      && (c.requests[request] == Sent(true) || c.requests[request].Joining? ==> c.sends[request] == 1)
  }

  lemma StepKeepsSends(s: State, e: Event, request: nat)
    requires SentTwiceAtMost(s.client, request)
    ensures SentTwiceAtMost(Next(s, e).client, request)
  {
  }

  lemma {:induction false} RequestsGoOutTwiceAtMost(events: seq<Event>, request: nat)
    ensures SentTwiceAtMost(Run(EMPTY, events).client, request)
  {
    if events != [] {
      var front, e := events[..|events| - 1], events[|events| - 1];
      RequestsGoOutTwiceAtMost(front, request);
      StepKeepsSends(Run(EMPTY, front), e, request);
    }
  }

  // ---------------------------------------------------------------- tokens are presented once

  /** Sign-in responses on their way hold different tokens that were neither stored nor posted. */
  ghost predicate LoginsFresh(c: Client) {
    && (forall login :: login in c.logins ==> c.logins[login] in c.mine && c.logins[login] !in c.presented
                                              && c.stored != Some(c.logins[login]))
    && (forall a, b :: a in c.logins && b in c.logins && a != b ==> c.logins[a] != c.logins[b])
  }

  /** A token that arrives is new to the client. */
  ghost predicate Unknown(c: Client, token: nat) {
    && token in c.mine && token !in c.presented
    && (forall login :: login in c.logins ==> c.logins[login] != token)
  }

  predicate TaskFits(c: Client, task: Task) {
    && (task.phase.Posting? ==> task.token.Some?)
    && (task.token.Some? ==> task.token.value in c.presented)
  }

  ghost predicate TasksFit(c: Client) {
    && (forall x :: x in c.tasks ==> TaskFits(c, c.tasks[x]))
    && (forall x :: x in c.tasks && c.tasks[x].phase.Saving? ==> Unknown(c, c.tasks[x].phase.next))
    && (forall x, y :: x in c.tasks && y in c.tasks && x != y && c.tasks[x].token.Some? ==> c.tasks[x].token != c.tasks[y].token)
  }

  ghost predicate ClientInv(c: Client) {
    && SingleFlight(c) && LoginsFresh(c) && TasksFit(c)
    && c.presented <= c.mine
    && (c.stored.Some? ==> c.stored.value in c.mine)
  }

  /** A thread of the client works on the token its task posted; its answer is new to the client. */
  ghost predicate OwnThreadFits(c: Client, x: nat, thread: S.Thread)
    requires x in c.tasks
  {
    && c.tasks[x].token.Some?
    && (thread.Rotating? ==> c.tasks[x].token == Some(thread.id))
    && (thread.Issued? && c.tasks[x].phase.Posting? ==> Unknown(c, thread.next))
  }

  ghost predicate OwnThreadsFit(c: Client, threads: map<nat, S.Thread>) {
    forall x :: x in threads && x in c.tasks ==> OwnThreadFits(c, x, threads[x])
  }

  ghost predicate OtherThreadsApart(c: Client, threads: map<nat, S.Thread>) {
    forall x :: x in threads && x !in c.tasks && threads[x].Rotating? ==> threads[x].id !in c.mine
  }

  ghost predicate FamiliesApart(tokens: map<nat, S.Token>, mine: set<nat>) {
    && mine <= tokens.Keys
    && forall a, b :: a in mine && b in tokens && tokens[a].family == tokens[b].family ==> b in mine
  }

  /** A token of this client that it has not posted, or whose post has not been read, has no successor. */
  ghost predicate Unrotated(c: Client, tokens: map<nat, S.Token>, read: set<nat>) {
    && c.mine <= tokens.Keys
    && (forall id :: id in c.mine && id !in c.presented ==> tokens[id].replacedBy.None?)
    && (forall x :: x in c.tasks && x !in read && c.tasks[x].token.Some? && c.tasks[x].token.value in c.mine ==>
          tokens[c.tasks[x].token.value].replacedBy.None?)
  }

  /** What relates client and server, beside what each keeps on its own. */
  ghost predicate Beside(server: S.State, c: Client) {
    && OwnThreadsFit(c, server.threads) && OtherThreadsApart(c, server.threads)
    && FamiliesApart(server.tokens, c.mine)
    && Unrotated(c, server.tokens, server.threads.Keys)
  }

  ghost predicate Inv(s: State) {
    S.Inv(s.server) && ClientInv(s.client) && Beside(s.server, s.client)
  }

  // The client's own steps.

  lemma SignedInKeeps(c: Client, login: nat, written: bool)
    requires ClientInv(c)
    ensures ClientInv(ClientStep(c, SignedIn(login, written)))
  {
  }

  /** A refresh is about to post a token that was posted before. */
  predicate Repeats(c: Client, e: Event) {
    e.ReadStored? && TaskIs(c, e.task, Reading) && c.stored.Some? && c.stored.value in c.presented
  }

  lemma ReadStoredKeeps(c: Client, task: nat)
    requires ClientInv(c) && !Repeats(c, ReadStored(task))
    ensures ClientInv(ReadStoredStep(c, task))
  {
  }

  lemma SignOutKeeps(c: Client, deleted: bool)
    requires ClientInv(c)
    ensures ClientInv(ClientStep(c, SignOut(deleted)))
  {
  }

  lemma RequestsMove(c: Client, next: Client)
    requires ClientInv(c) && next == c.(requests := next.requests, sends := next.sends)
    ensures ClientInv(next)
  {
  }

  lemma StartingKeeps(c: Client, task: nat)
    requires ClientInv(c) && c.promise.None? && task !in c.tasks
    ensures ClientInv(c.(tasks := c.tasks[task := Task(Reading, None)], promise := Some(task)))
  {
  }

  lemma UnauthorizedKeeps(c: Client, request: nat, task: nat)
    requires ClientInv(c)
    ensures ClientInv(UnauthorizedStep(c, request, task))
  {
    if c.promise.None? && task !in c.tasks {
      StartingKeeps(c, task);
      RequestsMove(c.(tasks := c.tasks[task := Task(Reading, None)], promise := Some(task)),
                   c.(tasks := c.tasks[task := Task(Reading, None)], promise := Some(task),
                      requests := UnauthorizedStep(c, request, task).requests));
    }
    RequestsMove(c, c.(requests := UnauthorizedStep(c, request, task).requests));
  }

  lemma LoseKeeps(c: Client, task: nat)
    requires ClientInv(c) && TaskIs(c, task, Posting)
    ensures ClientInv(ToTask(c, task, Clearing))
  {
  }

  lemma SaveKeeps(c: Client, task: nat, written: bool, ok: bool)
    requires ClientInv(c) && task in c.tasks && c.tasks[task].phase.Saving?
    ensures ClientInv(SaveStep(c, task, written, ok))
  {
  }

  lemma ClearKeeps(c: Client, task: nat, deleted: bool)
    requires ClientInv(c) && TaskIs(c, task, Clearing)
    ensures ClientInv(ClearStep(c, task, deleted))
  {
  }

  lemma LeaveKeeps(c: Client, task: nat)
    requires ClientInv(c) && task in c.tasks && c.tasks[task].phase.Leaving?
    ensures ClientInv(LeaveStep(c, task))
  {
  }

  lemma ClientStepKeeps(c: Client, e: Event)
    requires ClientInv(c) && !Repeats(c, e)
    ensures ClientInv(ClientStep(c, e))
  {
    match e
    case SignedIn(login, written) => SignedInKeeps(c, login, written);
    case SignOut(deleted) => SignOutKeeps(c, deleted);
    case Send(request) => RequestsMove(c, ClientStep(c, e));
    case Answer(request, ok) => RequestsMove(c, ClientStep(c, e));
    case Resume(request) => RequestsMove(c, ClientStep(c, e));
    case ReadStored(task) => ReadStoredKeeps(c, task);
    case Lose(task) => if TaskIs(c, task, Posting) { LoseKeeps(c, task); }
    case Save(task, written, ok) => if task in c.tasks && c.tasks[task].phase.Saving? { SaveKeeps(c, task, written, ok); }
    case Clear(task, deleted) => if TaskIs(c, task, Clearing) { ClearKeeps(c, task, deleted); }
    case Leave(task) => if task in c.tasks && c.tasks[task].phase.Leaving? { LeaveKeeps(c, task); }
    case _ =>
  }

  // The client's own steps beside the server.

  /** No task starts, no token is posted or arrives. */
  ghost predicate Calm(c: Client, next: Client) {
    && next.mine == c.mine && next.presented == c.presented && next.tasks.Keys == c.tasks.Keys
    && (forall x :: x in c.tasks ==>
          next.tasks[x].token == c.tasks[x].token && (next.tasks[x].phase.Posting? ==> c.tasks[x].phase.Posting?))
    && (forall login :: login in next.logins ==> login in c.logins && next.logins[login] == c.logins[login])
  }

  lemma CalmKeepsBeside(server: S.State, c: Client, next: Client)
    requires Beside(server, c) && Calm(c, next)
    ensures Beside(server, next)
  {
  }

  lemma StepsAreCalm(c: Client, e: Event)
    requires OfClient(e) && !e.ReadStored?
    ensures Calm(c, ClientStep(c, e))
  {
  }

  /** A new refresh has posted nothing, and no thread of the server has its number. */
  ghost predicate Starts(c: Client, next: Client, threads: map<nat, S.Thread>) {
    && next.mine == c.mine && next.presented == c.presented && next.logins == c.logins
    && (forall x :: x in c.tasks ==> x in next.tasks && next.tasks[x] == c.tasks[x])
    && (forall x :: x in next.tasks && x !in c.tasks ==> x !in threads && next.tasks[x].token.None?)
  }

  lemma UnauthorizedStarts(c: Client, request: nat, task: nat, threads: map<nat, S.Thread>)
    requires task !in threads
    ensures Starts(c, UnauthorizedStep(c, request, task), threads)
    ensures UnauthorizedStep(c, request, task).stored == c.stored
  {
  }

  lemma StartingKeepsBeside(server: S.State, c: Client, next: Client)
    requires Beside(server, c) && Starts(c, next, server.threads)
    ensures Beside(server, next)
  {
  }

  lemma PostingKeepsBeside(server: S.State, c: Client, task: nat)
    requires ClientInv(c) && Beside(server, c) && !Repeats(c, ReadStored(task))
    ensures Beside(server, ReadStoredStep(c, task))
  {
  }

  // The server's steps.

  lemma ReadKeepsBeside(server: S.State, c: Client, thread: nat, id: nat, genuine: bool, usable: bool)
    requires Beside(server, c)
    requires thread in c.tasks ==> c.tasks[thread].token == Some(id)
    requires thread !in c.tasks ==> id !in c.mine
    ensures Beside(S.ReadStep(server, thread, id, genuine, usable), c)
  {
  }

  lemma KillKeepsBeside(server: S.State, c: Client, thread: nat)
    requires Beside(server, c)
    ensures Beside(S.KillStep(server, thread), c)
  {
  }

  lemma LoginKeepsBeside(server: S.State, c: Client, id: nat, family: nat, user: nat)
    requires S.AllListed(server.tokens, server.chains) && Beside(server, c)
    ensures Beside(S.LoginStep(server, id, family, user), c)
  {
  }

  lemma RotateKeepsBeside(server: S.State, c: Client, thread: nat, next: nat)
    requires S.ThreadsFit(server.threads, server.tokens, server.chains) && Beside(server, c) && thread !in c.tasks
    ensures Beside(S.RotateStep(server, thread, next), c)
  {
  }

  lemma RevocationKeepsBeside(server: S.State, c: Client, f: S.Event)
    requires Beside(server, c) && (f.RevokeOne? || f.RevokeAll?)
    ensures Beside(S.Next(server, f), c)
  {
  }

  lemma ForeignKeepsBeside(server: S.State, c: Client, f: S.Event)
    requires S.Inv(server) && Beside(server, c) && Foreign(State(server, c), f)
    ensures Beside(S.Next(server, f), c)
  {
    match f
    case Login(id, family, user) => LoginKeepsBeside(server, c, id, family, user);
    case Read(thread, id, genuine, usable) => ReadKeepsBeside(server, c, thread, id, genuine, usable);
    case Kill(thread) => KillKeepsBeside(server, c, thread);
    case Rotate(thread, next) => RotateKeepsBeside(server, c, thread, next);
    case RevokeOne(id) => RevocationKeepsBeside(server, c, f);
    case RevokeAll(user) => RevocationKeepsBeside(server, c, f);
  }

  lemma OthersKeepInv(s: State, f: S.Event)
    requires Inv(s)
    ensures Inv(OthersStep(s, f))
  {
    if Foreign(s, f) {
      S.NextKeepsInv(s.server, f);
      ForeignKeepsBeside(s.server, s.client, f);
    }
  }

  // Steps that give this client new tokens.

  lemma ArrivalKeeps(c: Client, task: nat, next: nat)
    requires ClientInv(c) && TaskIs(c, task, Posting) && Unknown(c, next)
    ensures ClientInv(ToTask(c, task, Saving(next)))
  {
  }

  lemma MovingIsCalm(c: Client, task: nat, phase: Phase)
    requires task in c.tasks && !phase.Posting?
    ensures Calm(c, ToTask(c, task, phase))
  {
  }

  lemma ArrivingKeepsInv(s: State, task: nat)
    requires Inv(s) && TaskIs(s.client, task, Posting) && task in s.server.threads
    ensures Inv(ReceiveStep(s, task))
  {
    assert OwnThreadFits(s.client, task, s.server.threads[task]);
    match s.server.threads[task]
    case Issued(next) =>
      ArrivalKeeps(s.client, task, next);
      MovingIsCalm(s.client, task, Saving(next));
      CalmKeepsBeside(s.server, s.client, ToTask(s.client, task, Saving(next)));
    case Rejected =>
      LoseKeeps(s.client, task);
      MovingIsCalm(s.client, task, Clearing);
      CalmKeepsBeside(s.server, s.client, ToTask(s.client, task, Clearing));
    case _ =>
  }

  lemma ReceiveKeepsInv(s: State, task: nat)
    requires Inv(s)
    ensures Inv(ReceiveStep(s, task))
  {
    if TaskIs(s.client, task, Posting) && task in s.server.threads {
      ArrivingKeepsInv(s, task);
    }
  }

  lemma SignInKeepsClient(c: Client, login: nat, id: nat)
    requires ClientInv(c) && id !in c.mine && login !in c.logins
    ensures ClientInv(c.(logins := c.logins[login := id], mine := c.mine + {id}))
  {
  }

  /** A fresh token joins those the client owns, on its way in a response or a thread. */
  ghost predicate Gains(c: Client, next: Client, id: nat) {
    && next.mine == c.mine + {id} && next.presented == c.presented && next.tasks == c.tasks
    && (forall login :: login in next.logins ==>
          next.logins[login] == id || (login in c.logins && next.logins[login] == c.logins[login]))
  }

  lemma GainKeepsThreads(c: Client, next: Client, threads: map<nat, S.Thread>, id: nat)
    requires OwnThreadsFit(c, threads) && Gains(c, next, id) && id !in c.mine
    ensures OwnThreadsFit(next, threads)
  {
  }

  lemma GainKeepsOthers(server: S.State, c: Client, next: Client, id: nat)
    requires S.ThreadsFit(server.threads, server.tokens, server.chains) && OtherThreadsApart(c, server.threads)
    requires Gains(c, next, id) && id !in server.tokens
    ensures OtherThreadsApart(next, server.threads)
  {
  }

  lemma SignInKeepsFamilies(server: S.State, mine: set<nat>, id: nat, family: nat, user: nat)
    requires S.AllListed(server.tokens, server.chains) && FamiliesApart(server.tokens, mine)
    requires id !in server.tokens && family !in server.chains
    ensures FamiliesApart(S.LoginStep(server, id, family, user).tokens, mine + {id})
  {
  }

  lemma GainKeepsUnrotated(c: Client, next: Client, tokens: map<nat, S.Token>, read: set<nat>, id: nat, token: S.Token)
    requires TasksFit(c) && c.presented <= c.mine
    requires Unrotated(c, tokens, read) && Gains(c, next, id) && id !in tokens && token.replacedBy.None?
    ensures Unrotated(next, tokens[id := token], read)
  {
  }

  lemma SignInKeepsBeside(server: S.State, c: Client, login: nat, id: nat, family: nat, user: nat)
    requires S.Inv(server) && ClientInv(c) && Beside(server, c)
    requires login !in c.logins && id !in server.tokens && family !in server.chains
    ensures Beside(S.LoginStep(server, id, family, user), c.(logins := c.logins[login := id], mine := c.mine + {id}))
  {
    var next := c.(logins := c.logins[login := id], mine := c.mine + {id});
    GainKeepsThreads(c, next, server.threads, id);
    GainKeepsOthers(server, c, next, id);
    SignInKeepsFamilies(server, c.mine, id, family, user);
    GainKeepsUnrotated(c, next, server.tokens, server.threads.Keys, id, S.Token(family, user, false, None));
  }

  lemma SignInKeepsInv(s: State, login: nat, id: nat, family: nat, user: nat)
    requires Inv(s)
    ensures Inv(SignInStep(s, login, id, family, user))
  {
    if login !in s.client.logins && id !in s.server.tokens && family !in s.server.chains {
      S.LoginKeepsInv(s.server, id, family, user);
      SignInKeepsClient(s.client, login, id);
      SignInKeepsBeside(s.server, s.client, login, id, family, user);
    }
  }

  // The rotation of a token this client posted.

  lemma RotationKeepsFamilies(tokens: map<nat, S.Token>, mine: set<nat>, id: nat, next: nat, successor: S.Token)
    requires FamiliesApart(tokens, mine) && id in mine && next !in tokens && successor.family == tokens[id].family
    ensures FamiliesApart(tokens[next := successor][id := tokens[id].(revoked := true, replacedBy := Some(next))], mine + {next})
  {
  }

  lemma RotationKeepsUnrotated(c: Client, gained: Client, tokens: map<nat, S.Token>, read: set<nat>, task: nat, next: nat, successor: S.Token)
    requires TasksFit(c) && c.presented <= c.mine && Unrotated(c, tokens, read)
    requires task in c.tasks && task in read && c.tasks[task].token.Some?
    requires Gains(c, gained, next) && next !in tokens && successor.replacedBy.None?
    ensures
      var id := c.tasks[task].token.value;
      && id in tokens
      && Unrotated(gained, tokens[next := successor][id := tokens[id].(revoked := true, replacedBy := Some(next))], read)
  {
  }

  lemma IssuedKeepsThreads(c: Client, threads: map<nat, S.Thread>, task: nat, next: nat)
    requires OwnThreadsFit(c, threads) && task in c.tasks && task in threads && Unknown(c, next)
    ensures OwnThreadsFit(c, threads[task := S.Issued(next)])
  {
  }

  /** A thread of this client rotates the token its task posted. */
  lemma RotatesItsOwn(server: S.State, c: Client, task: nat)
    requires S.ThreadsFit(server.threads, server.tokens, server.chains)
    requires ClientInv(c) && OwnThreadsFit(c, server.threads)
    requires task in c.tasks && task in server.threads && server.threads[task].Rotating?
    ensures
      var id, stored := server.threads[task].id, server.threads[task].token;
      && c.tasks[task].token == Some(id) && id in c.mine && id in server.tokens
      && stored.family == server.tokens[id].family
  {
  }

  lemma RotatedThreads(server: S.State, c: Client, task: nat, next: nat)
    requires S.Inv(server) && ClientInv(c) && Beside(server, c)
    requires task in c.tasks && task in server.threads && next !in server.tokens
    ensures
      var gained, threads := c.(mine := c.mine + {next}), server.threads[task := S.Issued(next)];
      OwnThreadsFit(gained, threads) && OtherThreadsApart(gained, threads)
  {
    var gained := c.(mine := c.mine + {next});
    GainKeepsThreads(c, gained, server.threads, next);
    IssuedKeepsThreads(gained, server.threads, task, next);
    GainKeepsOthers(server, c, gained, next);
  }

  lemma RotatedKeepsBeside(server: S.State, c: Client, task: nat, next: nat)
    requires S.Inv(server) && ClientInv(c) && Beside(server, c)
    requires task in c.tasks && task in server.threads && server.threads[task].Rotating? && next !in server.tokens
    requires S.Live(server, server.threads[task].id) && server.threads[task].token.family in server.chains
    ensures Beside(S.RotateStep(server, task, next), c.(mine := c.mine + {next}))
  {
    var gained := c.(mine := c.mine + {next});
    var id, stored := server.threads[task].id, server.threads[task].token;
    var successor := S.Token(stored.family, stored.user, false, None);
    RotatesItsOwn(server, c, task);
    RotatedThreads(server, c, task, next);
    RotationKeepsFamilies(server.tokens, c.mine, id, next, successor);
    RotationKeepsUnrotated(c, gained, server.tokens, server.threads.Keys, task, next, successor);
    assert server.threads[task := S.Issued(next)].Keys == server.threads.Keys;
  }

  lemma GainKeepsClient(c: Client, id: nat)
    requires ClientInv(c)
    ensures ClientInv(c.(mine := c.mine + {id}))
  {
  }

  /** The thread may rotate: it is this client's, and the next token is new. */
  predicate MayRotate(s: State, task: nat, next: nat) {
    && task in s.client.tasks && task in s.server.threads && s.server.threads[task].Rotating?
    && next !in s.server.tokens
  }

  predicate Wins(server: S.State, task: nat)
    requires task in server.threads && server.threads[task].Rotating?
  {
    S.Live(server, server.threads[task].id) && server.threads[task].token.family in server.chains
  }

  lemma RotationsEndings(s: State, task: nat, next: nat)
    requires MayRotate(s, task, next)
    ensures Wins(s.server, task) ==>
      ServerRotatesStep(s, task, next) == State(S.RotateStep(s.server, task, next), s.client.(mine := s.client.mine + {next}))
    ensures !Wins(s.server, task) ==>
      ServerRotatesStep(s, task, next) == State(s.server.(threads := s.server.threads[task := S.Rejected]), s.client)
  {
  }

  lemma WinningKeepsInv(server: S.State, c: Client, task: nat, next: nat)
    requires Inv(State(server, c)) && MayRotate(State(server, c), task, next) && Wins(server, task)
    ensures Inv(State(S.RotateStep(server, task, next), c.(mine := c.mine + {next})))
  {
    S.RotateKeepsInv(server, task, next);
    GainKeepsClient(c, next);
    RotatedKeepsBeside(server, c, task, next);
  }

  lemma RefusedKeepsBeside(server: S.State, c: Client, task: nat)
    requires Beside(server, c) && task in server.threads
    ensures Beside(server.(threads := server.threads[task := S.Rejected]), c)
  {
  }

  lemma LosingKeepsInv(server: S.State, c: Client, task: nat, next: nat)
    requires Inv(State(server, c)) && MayRotate(State(server, c), task, next) && !Wins(server, task)
    ensures Inv(State(server.(threads := server.threads[task := S.Rejected]), c))
  {
    S.RejectingKeepsInv(server, task);
    RefusedKeepsBeside(server, c, task);
  }

  lemma ServerRotatesKeepsInv(s: State, task: nat, next: nat)
    requires Inv(s)
    ensures Inv(ServerRotatesStep(s, task, next))
  {
    if MayRotate(s, task, next) {
      RotationsEndings(s, task, next);
      if Wins(s.server, task) {
        WinningKeepsInv(s.server, s.client, task, next);
      } else {
        LosingKeepsInv(s.server, s.client, task, next);
      }
    }
  }

  // Every step.

  lemma ServerReadsKeepsInv(s: State, task: nat, usable: bool)
    requires Inv(s)
    ensures Inv(ServerReadsStep(s, task, usable))
  {
    if task in s.client.tasks && s.client.tasks[task].token.Some? && task !in s.server.threads {
      var id := s.client.tasks[task].token.value;
      S.ReadKeepsInv(s.server, task, id, true, usable);
      ReadKeepsBeside(s.server, s.client, task, id, true, usable);
    }
  }

  lemma ServerKillsKeepsInv(s: State, task: nat)
    requires Inv(s)
    ensures Inv(ServerKillsStep(s, task))
  {
    S.KillKeepsInv(s.server, task);
    KillKeepsBeside(s.server, s.client, task);
  }

  lemma ClientKeepsInv(s: State, e: Event)
    requires Inv(s) && OfClient(e) && !Repeats(s.client, e)
    ensures Inv(s.(client := ClientStep(s.client, e)))
  {
    ClientStepKeeps(s.client, e);
    if e.ReadStored? {
      PostingKeepsBeside(s.server, s.client, e.task);
    } else {
      StepsAreCalm(s.client, e);
      CalmKeepsBeside(s.server, s.client, ClientStep(s.client, e));
    }
  }

  lemma RefreshKeepsInv(s: State, request: nat, task: nat)
    requires Inv(s)
    ensures Inv(RefreshStep(s, request, task))
  {
    if task !in s.server.threads {
      UnauthorizedKeeps(s.client, request, task);
      UnauthorizedStarts(s.client, request, task, s.server.threads);
      StartingKeepsBeside(s.server, s.client, UnauthorizedStep(s.client, request, task));
    }
  }

  lemma ServerKeepsInv(s: State, e: Event)
    requires Inv(s)
    ensures Inv(ServerStep(s, e))
  {
    match e
    case Others(f) => OthersKeepInv(s, f);
    case ServerReads(task, usable) => ServerReadsKeepsInv(s, task, usable);
    case ServerKills(task) => ServerKillsKeepsInv(s, task);
    case ServerRotates(task, next) => ServerRotatesKeepsInv(s, task, next);
    case _ =>
  }

  lemma MeetingKeepsInv(s: State, e: Event)
    requires Inv(s)
    ensures Inv(MeetingStep(s, e))
  {
    match e
    case SignIn(login, id, family, user) => SignInKeepsInv(s, login, id, family, user);
    case Receive(task) => ReceiveKeepsInv(s, task);
    case Unauthorized(request, task) => RefreshKeepsInv(s, request, task);
    case _ =>
  }

  /** Every step that posts no token again keeps client and token families consistent. */
  lemma NextKeepsInv(s: State, e: Event)
    requires Inv(s) && !Repeats(s.client, e)
    ensures Inv(Next(s, e))
  {
    hide Inv;
    if OfClient(e) {
      ClientKeepsInv(s, e);
    } else if OfServer(e) {
      ServerKeepsInv(s, e);
    } else {
      MeetingKeepsInv(s, e);
    }
  }

  ghost predicate NeverRepeats(events: seq<Event>) {
    events != [] ==>
      && NeverRepeats(events[..|events| - 1])
      && !Repeats(Run(EMPTY, events[..|events| - 1]).client, events[|events| - 1])
  }

  lemma {:induction false} InvHolds(events: seq<Event>)
    requires NeverRepeats(events)
    ensures Inv(Run(EMPTY, events))
  {
    if events != [] {
      InvHolds(events[..|events| - 1]);
      NextKeepsInv(Run(EMPTY, events[..|events| - 1]), events[|events| - 1]);
    }
  }

  // ---------------------------------------------------------------- what is posted twice

  /** A task holds the token it posted, and every token that was posted is held by a task. */
  ghost predicate HoldsWhatItPosted(c: Client) {
    && (forall x :: x in c.tasks && c.tasks[x].phase.Reading? ==> c.tasks[x].token.None?)
    && (forall x :: x in c.tasks && c.tasks[x].token.Some? ==> c.tasks[x].token.value in c.presented)
    && (forall id :: id in c.presented ==> HeldBySomeTask(c, id))
  }

  predicate HeldBySomeTask(c: Client, id: nat) {
    exists x :: x in c.tasks && c.tasks[x].token == Some(id)
  }

  /** No two tasks have posted the same token. */
  ghost predicate PostedOnce(c: Client) {
    forall x, y :: x in c.tasks && y in c.tasks && x != y && c.tasks[x].token.Some? ==> c.tasks[x].token != c.tasks[y].token
  }

  /** No task posts, forgets its token or starts reading again; new ones have none. */
  ghost predicate SameTokens(c: Client, next: Client) {
    && next.presented == c.presented
    && (forall x :: x in c.tasks ==> x in next.tasks && next.tasks[x].token == c.tasks[x].token
                                     && (next.tasks[x].phase.Reading? ==> c.tasks[x].phase.Reading?))
    && (forall x :: x in next.tasks && x !in c.tasks ==> next.tasks[x].token.None?)
  }

  lemma SameTokensPost(c: Client, next: Client)
    requires HoldsWhatItPosted(c) && SameTokens(c, next)
    ensures HoldsWhatItPosted(next) && (PostedOnce(next) <==> PostedOnce(c))
  {
    forall id | id in next.presented ensures HeldBySomeTask(next, id) {
      assert HeldBySomeTask(c, id);
    }
    if PostedOnce(next) {
      forall x, y | x in c.tasks && y in c.tasks && x != y && c.tasks[x].token.Some? ensures c.tasks[x].token != c.tasks[y].token {
        assert next.tasks[x].token != next.tasks[y].token;
      }
    }
  }

  lemma OnlyReadingPosts(s: State, e: Event)
    requires !e.ReadStored?
    ensures SameTokens(s.client, Next(s, e).client)
  {
    hide SameTokens, ClientStep, ServerStep, MeetingStep;
    if OfClient(e) {
      ClientPostsNothing(s.client, e);
    } else if OfServer(e) {
      ServerPostsNothing(s, e);
    } else {
      MeetingPostsNothing(s, e);
    }
  }

  lemma ServerPostsNothing(s: State, e: Event)
    requires OfServer(e)
    ensures SameTokens(s.client, ServerStep(s, e).client)
  {
  }

  lemma MeetingPostsNothing(s: State, e: Event)
    requires !OfClient(e) && !OfServer(e)
    ensures SameTokens(s.client, MeetingStep(s, e).client)
  {
  }

  lemma ClientPostsNothing(c: Client, e: Event)
    requires OfClient(e) && !e.ReadStored?
    ensures SameTokens(c, ClientStep(c, e))
  {
  }

  lemma PostsOnceMoreIff(c: Client, task: nat)
    requires HoldsWhatItPosted(c) && TaskIs(c, task, Reading) && c.stored.Some?
    ensures
      var next := ReadStoredStep(c, task);
      HoldsWhatItPosted(next) && (PostedOnce(next) <==> PostedOnce(c) && !Repeats(c, ReadStored(task)))
  {
    var next, token := ReadStoredStep(c, task), c.stored.value;
    assert next.tasks[task].token == Some(token) && c.tasks[task].token.None?;
    forall id | id in next.presented ensures HeldBySomeTask(next, id) {
      if id in c.presented {
        var x :| x in c.tasks && c.tasks[x].token == Some(id);
        assert x != task && next.tasks[x] == c.tasks[x];
      } else {
        assert next.tasks[task].token == Some(id);
      }
    }
    if token in c.presented {
      var x :| x in c.tasks && c.tasks[x].token == Some(token);
      assert x != task && next.tasks[x].token == next.tasks[task].token;
    } else if PostedOnce(next) {
      forall x, y | x in c.tasks && y in c.tasks && x != y && c.tasks[x].token.Some? ensures c.tasks[x].token != c.tasks[y].token {
        assert x != task && next.tasks[x].token != next.tasks[y].token;
      }
    }
  }

  lemma StepPostsOnceIff(s: State, e: Event)
    requires HoldsWhatItPosted(s.client)
    ensures HoldsWhatItPosted(Next(s, e).client)
    ensures PostedOnce(Next(s, e).client) <==> PostedOnce(s.client) && !Repeats(s.client, e)
  {
    if e.ReadStored? && TaskIs(s.client, e.task, Reading) && s.client.stored.Some? {
      PostsOnceMoreIff(s.client, e.task);
    } else {
      if e.ReadStored? {
        assert SameTokens(s.client, Next(s, e).client);
      } else {
        OnlyReadingPosts(s, e);
      }
      SameTokensPost(s.client, Next(s, e).client);
    }
  }

  /**
    No token is ever posted by two refreshes, through any number of 401s, sign-ins, sign-outs, lost
    responses and failing writes and deletions, exactly when no refresh reads a stored token that was
    posted before.
   */
  lemma {:induction false} TokensArePostedOnceIff(events: seq<Event>)
    ensures HoldsWhatItPosted(Run(EMPTY, events).client)
    ensures PostedOnce(Run(EMPTY, events).client) <==> NeverRepeats(events)
  {
    if events != [] {
      TokensArePostedOnceIff(events[..|events| - 1]);
      StepPostsOnceIff(Run(EMPTY, events[..|events| - 1]), events[|events| - 1]);
    }
  }

  /** Client and server are consistent after a run exactly when it posted no token twice. */
  lemma ConsistentIffPostedOnce(events: seq<Event>)
    ensures Inv(Run(EMPTY, events)) <==> PostedOnce(Run(EMPTY, events).client)
  {
    TokensArePostedOnceIff(events);
    if NeverRepeats(events) {
      InvHolds(events);
    }
  }

  // ---------------------------------------------------------------- tokens left behind

  predicate Pending(phase: Phase) {
    phase.Posting? || phase.Saving? || phase.Clearing?
  }

  /** The stored token was posted, and no refresh is going to replace or delete it. */
  predicate LeftBehind(c: Client) {
    && c.stored.Some? && c.stored.value in c.presented
    && !(c.promise.Some? && c.promise.value in c.tasks && Pending(c.tasks[c.promise.value].phase))
  }

  /** A token that was posted stays behind because deleting it failed. */
  predicate FailsToClear(c: Client, e: Event) {
    e.Clear? && !e.deleted && TaskIs(c, e.task, Clearing) && c.stored.Some? && c.stored.value in c.presented
  }

  /** A sign-in or a refresh writes tokens. */
  predicate Stores(c: Client, e: Event) {
    || (e.SignedIn? && e.written && e.login in c.logins)
    || (e.Save? && e.written && e.task in c.tasks && c.tasks[e.task].phase.Saving?)
  }

  /** A sign-out or a failed refresh deletes them. */
  predicate Deletes(c: Client, e: Event) {
    (e.SignOut? && e.deleted) || (e.Clear? && e.deleted && TaskIs(c, e.task, Clearing))
  }

  lemma ClientLeavesBehindIff(c: Client, e: Event)
    requires ClientInv(c) && OfClient(e)
    ensures LeftBehind(ClientStep(c, e)) <==>
      FailsToClear(c, e) || (LeftBehind(c) && !Stores(c, e) && !Deletes(c, e) && !Repeats(c, e))
  {
  }

  lemma OthersLeaveNothingBehind(s: State, e: Event)
    requires SingleFlight(s.client) && !OfClient(e)
    ensures LeftBehind(Next(s, e).client) <==> LeftBehind(s.client)
    ensures !FailsToClear(s.client, e) && !Stores(s.client, e) && !Deletes(s.client, e) && !Repeats(s.client, e)
  {
  }

  lemma RepeatsWhatIsLeftBehind(c: Client, e: Event)
    requires SingleFlight(c) && Repeats(c, e)
    ensures LeftBehind(c)
  {
  }

  /**
    A posted token is left behind by a clear that fails and by nothing else; there it stays until tokens
    are written or deleted, or until the next refresh posts it again.
   */
  lemma LeftBehindIff(s: State, e: Event)
    requires Inv(s)
    ensures
      var c := s.client;
      && (LeftBehind(Next(s, e).client) <==>
            FailsToClear(c, e) || (LeftBehind(c) && !Stores(c, e) && !Deletes(c, e) && !Repeats(c, e)))
      && (Repeats(c, e) ==> LeftBehind(c))
  {
    if Repeats(s.client, e) {
      RepeatsWhatIsLeftBehind(s.client, e);
    }
    if OfClient(e) {
      ClientLeavesBehindIff(s.client, e);
    } else {
      OthersLeaveNothingBehind(s, e);
    }
    hide ClientInv, LeftBehind, FailsToClear, Stores, Deletes, Repeats;
  }

  /** A clear has failed to delete a posted token, and since then tokens were neither written nor deleted. */
  ghost predicate Lingers(events: seq<Event>) {
    events != [] &&
      var front, e := events[..|events| - 1], events[|events| - 1];
      var c := Run(EMPTY, front).client;
      FailsToClear(c, e) || (Lingers(front) && !Stores(c, e) && !Deletes(c, e))
  }

  /**
    As long as no token was posted twice, a posted token is left behind exactly when a failing clear
    left it and nothing has written or deleted tokens since.
   */
  lemma {:induction false} LeftBehindIffLingers(events: seq<Event>)
    requires NeverRepeats(events)
    ensures LeftBehind(Run(EMPTY, events).client) <==> Lingers(events)
  {
    if events != [] {
      LeftBehindIffLingers(events[..|events| - 1]);
      InvHolds(events[..|events| - 1]);
      LeftBehindIff(Run(EMPTY, events[..|events| - 1]), events[|events| - 1]);
    }
  }

  /** So the first token to be posted twice is one that lingers when a refresh reads it. */
  lemma RepeatsIffLingers(events: seq<Event>, e: Event)
    requires NeverRepeats(events)
    ensures NeverRepeats(events + [e]) <==>
      !(e.ReadStored? && TaskIs(Run(EMPTY, events).client, e.task, Reading) && Lingers(events))
  {
    assert (events + [e])[..|events|] == events;
    LeftBehindIffLingers(events);
    InvHolds(events);
    LeftBehindIff(Run(EMPTY, events), e);
  }

  lemma StepKeepsSingleFlight(s: State, e: Event)
    requires SingleFlight(s.client)
    ensures SingleFlight(Next(s, e).client)
  {
    if OfClient(e) {
      ClientKeepsSingleFlight(s.client, e);
    }
  }

  lemma ClientKeepsSingleFlight(c: Client, e: Event)
    requires SingleFlight(c)
    ensures SingleFlight(ClientStep(c, e))
  {
  }

  // ---------------------------------------------------------------- the protocol

  /** At most one refresh is in flight, and it is the one in refreshPromise; whatever fails. */
  lemma {:induction false} OneRefreshInFlight(events: seq<Event>)
    ensures
      var c := Run(EMPTY, events).client;
      && SingleFlight(c)
      && forall a, b :: a in c.tasks && b in c.tasks && InFlight(c.tasks[a].phase) && InFlight(c.tasks[b].phase) ==>
           a == b && c.promise == Some(a)
  {
    if events != [] {
      OneRefreshInFlight(events[..|events| - 1]);
      StepKeepsSingleFlight(Run(EMPTY, events[..|events| - 1]), events[|events| - 1]);
    }
  }

  /**
    When the server reads a token this client presents, and none was posted twice, that token has no
    successor: an already rotated token never arrives. Reuse is detected exactly when the token had been
    revoked as such, and then its family has no live token left that the detection could take away.
   */
  lemma RotatedTokensAreNeverPresented(events: seq<Event>, task: nat, usable: bool)
    requires NeverRepeats(events)
    requires
      var s := Run(EMPTY, events);
      task in s.client.tasks && s.client.tasks[task].token.Some? && task !in s.server.threads
    ensures
      var s := Run(EMPTY, events);
      var id := s.client.tasks[task].token.value;
      && id in s.server.tokens && s.server.tokens[id].replacedBy.None?
      && (Next(s, ServerReads(task, usable)).server.threads[task].Killing? <==> s.server.tokens[id].revoked)
      && (s.server.tokens[id].revoked ==> S.Dead(s.server, s.server.tokens[id].family))
  {
    InvHolds(events);
    var s := Run(EMPTY, events);
    assert TaskFits(s.client, s.client.tasks[task]);
    var id := s.client.tasks[task].token.value;
    if s.server.tokens[id].revoked {
      RevokedLastIsDead(s.server, id);
    }
  }

  lemma RevokedLastIsDead(server: S.State, id: nat)
    requires S.Inv(server) && id in server.tokens && server.tokens[id].revoked && server.tokens[id].replacedBy.None?
    ensures S.Dead(server, server.tokens[id].family)
  {
    var ids := server.chains[server.tokens[id].family];
    assert S.IsChain(server.tokens, server.tokens[id].family, ids);
    var k :| 0 <= k < |ids| && ids[k] == id;
    forall j | 0 <= j < |ids| - 1 ensures ids[j] != id {
      assert server.tokens[ids[j]].replacedBy == Some(ids[j + 1]);
    }
    forall other | other in server.tokens && server.tokens[other].family == server.tokens[id].family
      ensures server.tokens[other].revoked
    {
      var j :| 0 <= j < |ids| && ids[j] == other;
    }
  }
}
