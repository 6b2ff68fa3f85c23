/**
  The refresh-token table and the mobile client as objects that their methods update in place
  (apps/backend/src/auth/auth.service.ts and apps/mobile-driver/src/api/rest-api.ts). A method runs from
  one await to the next, is proved against its step in TokenFamilies or RestClient, and keeps the object
  valid: families are chains, and one refresh is in flight.
 */
module AuthServiceModel {
  import opened Common
  import opened TokenFamilies

  /** The rotated token takes the place of the old one: it is the only live token of its family. */
  lemma RotationLeavesOneLive(s: State, thread: nat, next: nat)
    requires Inv(s) && thread in s.threads && s.threads[thread].Rotating? && next !in s.tokens
    ensures s.threads[thread].token.family in s.chains
    ensures Live(s, s.threads[thread].id) ==>
      var after := RotateStep(s, thread, next);
      && Live(after, next) && after.tokens[next].family == s.threads[thread].token.family
      && after.tokens[next].user == s.tokens[s.threads[thread].id].user
      && (forall other :: Live(after, other) && after.tokens[other].family == after.tokens[next].family ==> other == next)
  {
    assert ThreadFits(s.threads[thread], s.tokens, s.chains);
    if Live(s, s.threads[thread].id) {
      var after := RotateStep(s, thread, next);
      RotateKeepsInv(s, thread, next);
      LiveIsLast(after, next);
      forall other | Live(after, other) && after.tokens[other].family == after.tokens[next].family ensures other == next {
        LiveIsLast(after, other);
      }
    }
  }

  class AuthService {
    var tokens: map<nat, Token>
    var threads: map<nat, Thread>
    ghost var chains: map<nat, seq<nat>>

    ghost function Table(): State
      reads this
    {
      State(tokens, threads, chains)
    }

    /** Every family is one chain, so it has at most one live token. */
    ghost predicate Valid()
      reads this
    {
      Inv(Table())
    }

    ghost predicate IsLive(id: nat)
      reads this
    {
      Live(Table(), id)
    }

    constructor ()
      ensures Valid() && Table() == EMPTY
    {
      tokens, threads, chains := map[], map[], map[];
    }

    /** `createSession`: a fresh family with one token. */
    method CreateSession(id: nat, family: nat, user: nat)
      requires Valid() && id !in tokens && family !in chains
      modifies this`tokens, this`chains
      ensures Valid() && Table() == LoginStep(old(Table()), id, family, user)
      ensures IsLive(id) && forall other :: other != id ==> (IsLive(other) <==> old(IsLive(other)))
    {
      hide Inv;
      LoginKeepsInv(Table(), id, family, user);
      tokens := tokens[id := Token(family, user, false, None)];
      chains := chains[family := [id]];
    }

    /** `refresh` up to its first write. */
    method BeginRefresh(thread: nat, id: nat, genuine: bool, usable: bool)
      requires Valid() && thread !in threads
      modifies this`threads
      ensures Valid() && Table() == ReadStep(old(Table()), thread, id, genuine, usable)
      ensures thread in threads
      ensures threads[thread].Killing? <==> id in tokens && genuine && !IsLive(id)
      ensures threads[thread].Rotating? <==> IsLive(id) && genuine && usable
    {
      hide Inv;
      ReadKeepsInv(Table(), thread, id, genuine, usable);
      if id !in tokens || !genuine {
        threads := threads[thread := Rejected];
        return;
      }
      var stored := tokens[id];
      if stored.revoked {
        threads := threads[thread := Killing(stored.family)];
      } else if !usable {
        threads := threads[thread := Rejected];
      } else {
        threads := threads[thread := Rotating(id, stored)];
      }
    }

    /** The reuse branch: revoke the live tokens of the family, row by row. */
    method KillFamily(thread: nat)
      requires Valid() && thread in threads && threads[thread].Killing?
      modifies this`tokens, this`threads
      ensures Valid() && Table() == KillStep(old(Table()), thread)
      ensures Dead(Table(), old(threads)[thread].family)
    {
      hide Inv, Dead;
      KillKeepsInv(Table(), thread);
      KillLeavesNoneAlive(Table(), thread);
      var family := threads[thread].family;
      var left := tokens.Keys;
      while left != {}
        invariant tokens.Keys == old(tokens).Keys && left <= tokens.Keys && threads == old(threads)
        invariant forall id :: id in tokens ==>
          tokens[id] == if id !in left && old(tokens)[id].family == family
                        then old(tokens)[id].(revoked := true) else old(tokens)[id]
        decreases left
      {
        var id :| id in left;
        if tokens[id].family == family && !tokens[id].revoked {
          tokens := tokens[id := tokens[id].(revoked := true)];
        }
        left := left - {id};
      }
      threads := threads[thread := Rejected];
      assert tokens == KillStep(old(Table()), thread).tokens;
    }

    /** The transaction of `refresh`: create first, then the compare-and-set that may roll back. */
    method Rotate(thread: nat, next: nat) returns (issued: bool)
      requires Valid() && thread in threads && threads[thread].Rotating? && next !in tokens
      modifies this`tokens, this`threads, this`chains
      ensures Valid() && Table() == RotateStep(old(Table()), thread, next)
      ensures issued <==> old(IsLive(threads[thread].id))
      ensures issued ==>
        && IsLive(next) && tokens[next].family == old(threads)[thread].token.family
        && (forall other :: IsLive(other) && tokens[other].family == tokens[next].family ==> other == next)
      ensures !issued ==> tokens == old(tokens)
    {
      hide Inv;
      RotateKeepsInv(Table(), thread, next);
      RotationLeavesOneLive(Table(), thread, next);
      var id, stored := threads[thread].id, threads[thread].token;
      var saved := tokens;
      tokens := tokens[next := Token(stored.family, stored.user, false, None)];
      if id !in saved || tokens[id].revoked {
        tokens := saved;
        threads := threads[thread := Rejected];
        return false;
      }
      tokens := tokens[id := tokens[id].(revoked := true, replacedBy := Some(next))];
      chains := chains[stored.family := chains[stored.family] + [next]];
      threads := threads[thread := Issued(next)];
      return true;
    }

    /** `revokeRefreshToken` */
    method RevokeRefreshToken(id: nat)
      requires Valid()
      modifies this`tokens
      ensures Valid() && Table() == Next(old(Table()), RevokeOne(id))
      ensures forall other :: IsLive(other) <==> old(IsLive(other)) && other != id
    {
      hide Inv;
      NextKeepsInv(Table(), RevokeOne(id));
      if id in tokens {
        tokens := tokens[id := tokens[id].(revoked := true)];
      }
    }

    /** `revokeAllRefreshTokens`, row by row. */
    method RevokeAllRefreshTokens(user: nat)
      requires Valid()
      modifies this`tokens
      ensures Valid() && Table() == Next(old(Table()), RevokeAll(user))
      ensures forall id :: IsLive(id) <==> old(IsLive(id)) && tokens[id].user != user
    {
      hide Inv;
      NextKeepsInv(Table(), RevokeAll(user));
      var left := tokens.Keys;
      while left != {}
        invariant tokens.Keys == old(tokens).Keys && left <= tokens.Keys
        invariant forall id :: id in tokens ==>
          tokens[id] == if id !in left && old(tokens)[id].user == user
                        then old(tokens)[id].(revoked := true) else old(tokens)[id]
        decreases left
      {
        var id :| id in left;
        if tokens[id].user == user && !tokens[id].revoked {
          tokens := tokens[id := tokens[id].(revoked := true)];
        }
        left := left - {id};
      }
      assert tokens == RevokedAll(old(tokens), user);
    }
  }
}

module RestClientModel {
  import opened Common
  import R = RestClient
  import S = TokenFamilies

  ghost predicate TwiceAtMost(c: R.Client) {
    forall request :: R.SentTwiceAtMost(c, request)
  }

  lemma StepKeepsValid(c: R.Client, e: R.Event)
    requires R.SingleFlight(c) && TwiceAtMost(c) && R.OfClient(e)
    ensures R.SingleFlight(R.ClientStep(c, e)) && TwiceAtMost(R.ClientStep(c, e))
  {
    R.ClientKeepsSingleFlight(c, e);
    forall request ensures R.SentTwiceAtMost(R.ClientStep(c, e), request) {
      R.StepKeepsSends(R.State(S.EMPTY, c), e, request);
    }
  }

  lemma StartingKeepsValid(c: R.Client, number: nat)
    requires R.SingleFlight(c) && TwiceAtMost(c) && c.promise.None? && number !in c.tasks
    ensures
      var started := c.(tasks := c.tasks[number := R.Task(R.Reading, None)], promise := Some(number));
      R.SingleFlight(started) && TwiceAtMost(started)
  {
    var started := c.(tasks := c.tasks[number := R.Task(R.Reading, None)], promise := Some(number));
    forall request ensures R.SentTwiceAtMost(started, request) {
      assert R.SentTwiceAtMost(c, request);
    }
  }

  lemma UnauthorizedKeepsValid(c: R.Client, request: nat, number: nat)
    requires R.SingleFlight(c) && TwiceAtMost(c)
    ensures
      var after := R.UnauthorizedStep(c, request, number);
      R.SingleFlight(after) && TwiceAtMost(after)
  {
    forall other ensures R.SentTwiceAtMost(R.UnauthorizedStep(c, request, number), other) {
      assert R.SentTwiceAtMost(c, other);
    }
  }

  class RestClient {
    var stored: Option<nat>
    var refreshPromise: Option<nat>
    var tasks: map<nat, R.Task>
    var requests: map<nat, R.Request>
    ghost var sends: map<nat, nat>
    ghost var logins: map<nat, nat>
    ghost var mine: set<nat>
    ghost var presented: set<nat>

    ghost function State(): R.Client
      reads this
    {
      R.Client(stored, refreshPromise, tasks, requests, sends, logins, mine, presented)
    }

    /** The refresh in flight is the one in the field, and no request goes out a third time. */
    ghost predicate Valid()
      reads this
    {
      R.SingleFlight(State()) && TwiceAtMost(State())
    }

    /** No token was posted twice, and arriving ones are new. */
    ghost predicate Consistent()
      reads this
    {
      R.ClientInv(State())
    }

    /** The stored token was posted, and no refresh is going to replace or delete it. */
    ghost predicate LeftBehind()
      reads this
    {
      R.LeftBehind(State())
    }

    constructor ()
      ensures Valid() && Consistent() && State() == R.NEW_CLIENT
    {
      stored, refreshPromise, tasks, requests := None, None, map[], map[];
      sends, logins, mine, presented := map[], map[], {}, {};
    }

    /** `refreshTokens`: the promise in the field, or a new one. */
    method RefreshTokens(number: nat) returns (task: nat)
      requires Valid() && (refreshPromise.None? ==> number !in tasks)
      modifies this`refreshPromise, this`tasks
      ensures Valid()
      ensures task == if old(refreshPromise).Some? then old(refreshPromise).value else number
      ensures tasks == if old(refreshPromise).Some? then old(tasks) else old(tasks)[number := R.Task(R.Reading, None)]
      ensures refreshPromise == Some(task) && task in tasks && R.InFlight(tasks[task].phase)
      ensures forall other :: other in tasks && R.InFlight(tasks[other].phase) ==> other == task
    {
      if refreshPromise.None? {
        StartingKeepsValid(State(), number);
        tasks := tasks[number := R.Task(R.Reading, None)];
        refreshPromise := Some(number);
      }
      task := refreshPromise.value;
    }

    /** `request` after a response with status 401. */
    method HandleUnauthorized(request: nat, number: nat)
      requires Valid() && request in requests && requests[request].Sent? && number !in tasks
      modifies this`refreshPromise, this`tasks, this`requests
      ensures Valid() && State() == R.UnauthorizedStep(old(State()), request, number)
      ensures old(Consistent()) ==> Consistent()
      ensures requests[request].Failed? <==> !old(requests[request].retry)
      ensures requests[request].Joining? ==> refreshPromise == Some(requests[request].task)
    {
      if R.ClientInv(State()) {
        R.UnauthorizedKeeps(State(), request, number);
      }
      UnauthorizedKeepsValid(State(), request, number);
      hide R.ClientInv, TwiceAtMost;
      if !requests[request].retry {
        requests := requests[request := R.Failed];
        return;
      }
      var task := RefreshTokens(number);
      requests := requests[request := R.Joining(task)];
    }

    /** `request` after the refresh it waited for: once more without a retry, or the error. */
    method Resume(request: nat)
      requires Valid() && request in requests && requests[request].Joining? && requests[request].task in tasks
      requires tasks[requests[request].task].phase.Done?
      modifies this`requests, this`sends
      ensures Valid() && State() == R.ResumeStep(old(State()), request)
      ensures old(Consistent()) ==> Consistent()
      ensures request in sends && sends[request] <= 2
      ensures requests[request] == if tasks[old(requests)[request].task].phase.ok then R.Sent(false) else R.Failed
    {
      assert R.SentTwiceAtMost(State(), request);
      if R.ClientInv(State()) {
        R.RequestsMove(State(), R.ResumeStep(State(), request));
      }
      StepKeepsValid(State(), R.Event.Resume(request));
      hide R.ClientInv, R.SingleFlight, TwiceAtMost;
      if tasks[requests[request].task].phase.ok {
        requests := requests[request := R.Sent(false)];
        sends := sends[request := sends[request] + 1];
      } else {
        requests := requests[request := R.Failed];
      }
    }

    /** The refresh reads the stored token and posts it. */
    method PostStored(task: nat)
      requires Valid() && task in tasks && tasks[task].phase.Reading?
      modifies this`tasks, this`presented
      ensures Valid() && State() == R.ReadStoredStep(old(State()), task)
      ensures presented == old(presented) + (if stored.Some? then {stored.value} else {})
      ensures old(Consistent()) && !old(LeftBehind()) ==>
        Consistent() && (stored.Some? ==> stored.value !in old(presented))
    {
      if R.ClientInv(State()) && !R.Repeats(State(), R.ReadStored(task)) {
        R.ReadStoredKeeps(State(), task);
      }
      StepKeepsValid(State(), R.ReadStored(task));
      hide TwiceAtMost;
      var refreshToken := stored;
      if refreshToken.None? {
        tasks := tasks[task := tasks[task].(phase := R.Leaving(false))];
        return;
      }
      presented := presented + {refreshToken.value};
      tasks := tasks[task := R.Task(R.Posting, refreshToken)];
    }

    /** `setTokens`, which may fail after the refresh token was written. */
    method SaveTokens(task: nat, written: bool, ok: bool)
      requires Valid() && task in tasks && tasks[task].phase.Saving?
      modifies this`tasks, this`stored
      ensures Valid() && State() == R.SaveStep(old(State()), task, written, ok)
      ensures old(Consistent()) ==> Consistent() && (written ==> stored.Some? && stored.value !in presented)
    {
      if R.ClientInv(State()) {
        R.SaveKeeps(State(), task, written, ok);
      }
      StepKeepsValid(State(), R.Save(task, written, ok));
      hide TwiceAtMost;
      var next := tasks[task].phase.next;
      if written {
        stored := Some(next);
      }
      tasks := tasks[task := tasks[task].(phase := if written && ok then R.Leaving(true) else R.Clearing)];
    }

    /** `clearTokens` in the catch block: one that fails may leave a posted token behind. */
    method ClearTokens(task: nat, deleted: bool)
      requires Valid() && task in tasks && tasks[task].phase.Clearing?
      modifies this`tasks, this`stored
      ensures Valid() && State() == R.ClearStep(old(State()), task, deleted)
      ensures old(Consistent()) ==> Consistent()
      ensures LeftBehind() <==> !deleted && stored.Some? && stored.value in presented
    {
      if R.ClientInv(State()) {
        R.ClearKeeps(State(), task, deleted);
      }
      assert refreshPromise == Some(task);
      StepKeepsValid(State(), R.Clear(task, deleted));
      hide R.ClientInv, R.SingleFlight, TwiceAtMost;
      if deleted {
        stored := None;
      }
      tasks := tasks[task := tasks[task].(phase := R.Leaving(false))];
    }

    /** The `finally` of the refresh. */
    method ReleasePromise(task: nat)
      requires Valid() && task in tasks && tasks[task].phase.Leaving?
      modifies this`tasks, this`refreshPromise
      ensures Valid() && State() == R.LeaveStep(old(State()), task)
      ensures old(Consistent()) ==> Consistent()
      ensures tasks == old(tasks)[task := old(tasks)[task].(phase := R.Done(old(tasks)[task].phase.ok))]
      ensures refreshPromise.None? && forall other :: other in tasks ==> tasks[other].phase.Done?
    {
      if R.ClientInv(State()) {
        R.LeaveKeeps(State(), task);
      }
      StepKeepsValid(State(), R.Leave(task));
      hide R.ClientInv, TwiceAtMost;
      tasks := tasks[task := tasks[task].(phase := R.Done(tasks[task].phase.ok))];
      refreshPromise := None;
    }
  }
}
