/**
  Refresh tokens on the server (apps/backend/src/auth/auth.service.ts): a refresh reads its token first
  and rotates it later in one transaction, which creates the next token and revokes the old one only if
  nobody has revoked it meanwhile. Presenting a revoked token kills the whole family.

  Any number of refreshes run at once, with any tokens. Hashes are opaque: `genuine` says whether the
  presented secret fits, `usable` whether the token has not expired and its user is active.
 */
module TokenFamilies {
  import opened Common

  datatype Token = Token(family: nat, user: nat, revoked: bool, replacedBy: Option<nat>)

  datatype Thread =
    | Killing(family: nat)            // the token read was revoked
    | Rotating(id: nat, token: Token) // the token as it was read
    | Issued(next: nat)
    | Rejected

  /** `chains` records, per family, its tokens in the order they were issued. */
  datatype State = State(tokens: map<nat, Token>, threads: map<nat, Thread>, chains: map<nat, seq<nat>>)

  const EMPTY := State(map[], map[], map[])

  datatype Event =
    | Login(id: nat, family: nat, user: nat)
    | Read(thread: nat, id: nat, genuine: bool, usable: bool)
    | Kill(thread: nat)
    | Rotate(thread: nat, next: nat)
    | RevokeOne(id: nat)
    | RevokeAll(user: nat)

  predicate Live(s: State, id: nat) {
    id in s.tokens && !s.tokens[id].revoked
  }

  function LoginStep(s: State, id: nat, family: nat, user: nat): State {
    if id in s.tokens || family in s.chains then s
    else s.(tokens := s.tokens[id := Token(family, user, false, None)], chains := s.chains[family := [id]])
  }

  function ReadStep(s: State, thread: nat, id: nat, genuine: bool, usable: bool): State {
    if thread in s.threads then s
    else s.(threads := s.threads[thread :=
      if id !in s.tokens || !genuine then Rejected
      else if s.tokens[id].revoked then Killing(s.tokens[id].family)
      else if !usable then Rejected
      else Rotating(id, s.tokens[id])])
  }

  /** `updateMany` with `revokedAt: null` over a family. */
  function KillStep(s: State, thread: nat): State {
    if thread in s.threads && s.threads[thread].Killing? then
      s.(tokens := map id | id in s.tokens ::
           if s.tokens[id].family == s.threads[thread].family then s.tokens[id].(revoked := true) else s.tokens[id],
         threads := s.threads[thread := Rejected])
    else s
  }

  /** The transaction of `refresh`; a lost compare-and-set rolls the creation back. */
  function RotateStep(s: State, thread: nat, next: nat): State {
    if thread in s.threads && s.threads[thread].Rotating? && next !in s.tokens then
      var id, stored := s.threads[thread].id, s.threads[thread].token;
      if Live(s, id) && stored.family in s.chains then
        s.(tokens := s.tokens[next := Token(stored.family, stored.user, false, None)]
                             [id := s.tokens[id].(revoked := true, replacedBy := Some(next))],
           threads := s.threads[thread := Issued(next)],
           chains := s.chains[stored.family := s.chains[stored.family] + [next]])
      else s.(threads := s.threads[thread := Rejected])
    else s
  }

  function RevokedOne(tokens: map<nat, Token>, id: nat): map<nat, Token> {
    if id in tokens then tokens[id := tokens[id].(revoked := true)] else tokens
  }

  function RevokedAll(tokens: map<nat, Token>, user: nat): map<nat, Token> {
    map id | id in tokens :: if tokens[id].user == user then tokens[id].(revoked := true) else tokens[id]
  }

  function Next(s: State, e: Event): State {
    match e
    case Login(id, family, user) => LoginStep(s, id, family, user)
    case Read(thread, id, genuine, usable) => ReadStep(s, thread, id, genuine, usable)
    case Kill(thread) => KillStep(s, thread)
    case Rotate(thread, next) => RotateStep(s, thread, next)
    case RevokeOne(id) => s.(tokens := RevokedOne(s.tokens, id))
    case RevokeAll(user) => s.(tokens := RevokedAll(s.tokens, user))
  }

  function Run(s: State, events: seq<Event>): State {
    if events == [] then s else Next(Run(s, events[..|events| - 1]), events[|events| - 1])
  }

  // ---------------------------------------------------------------- one chain a family

  /** The family's tokens in a row: every one but the last is revoked and names its successor. */
  ghost predicate IsChain(tokens: map<nat, Token>, family: nat, ids: seq<nat>) {
    && ids != []
    && (forall k :: 0 <= k < |ids| ==> ids[k] in tokens && tokens[ids[k]].family == family)
    && (forall k :: 0 <= k < |ids| - 1 ==> tokens[ids[k]].revoked && tokens[ids[k]].replacedBy == Some(ids[k + 1]))
    && tokens[ids[|ids| - 1]].replacedBy == None
    && (forall j, k :: 0 <= j < k < |ids| ==> ids[j] != ids[k])
  }

  ghost predicate AllChains(tokens: map<nat, Token>, chains: map<nat, seq<nat>>) {
    forall family :: family in chains ==> IsChain(tokens, family, chains[family])
  }

  ghost predicate AllListed(tokens: map<nat, Token>, chains: map<nat, seq<nat>>) {
    forall id :: id in tokens ==> tokens[id].family in chains && id in chains[tokens[id].family]
  }

  /** A refresh holds its token as it was: family, user, and still without successor. */
  predicate ThreadFits(thread: Thread, tokens: map<nat, Token>, chains: map<nat, seq<nat>>) {
    match thread
    case Rotating(id, token) =>
      id in tokens && !token.revoked && tokens[id].family == token.family && tokens[id].user == token.user
    case Issued(next) => next in tokens
    case Killing(family) => family in chains
    case Rejected => true
  }

  ghost predicate ThreadsFit(threads: map<nat, Thread>, tokens: map<nat, Token>, chains: map<nat, seq<nat>>) {
    forall t :: t in threads ==> ThreadFits(threads[t], tokens, chains)
  }

  ghost predicate Inv(s: State) {
    AllChains(s.tokens, s.chains) && AllListed(s.tokens, s.chains) && ThreadsFit(s.threads, s.tokens, s.chains)
  }

  /** Tokens are added and revoked, never changed otherwise by revocations. */
  ghost predicate OnlyRevokes(before: map<nat, Token>, after: map<nat, Token>) {
    && after.Keys == before.Keys
    && forall id :: id in before ==>
         after[id] == before[id] || after[id] == before[id].(revoked := true)
  }

  /** No token disappears or changes its family or user, and no chain disappears. */
  ghost predicate Grows(tokens: map<nat, Token>, chains: map<nat, seq<nat>>, after: map<nat, Token>, chainsAfter: map<nat, seq<nat>>) {
    && (forall id :: id in tokens ==>
          id in after && after[id].family == tokens[id].family && after[id].user == tokens[id].user)
    && chains.Keys <= chainsAfter.Keys
  }

  lemma ThreadsStillFit(threads: map<nat, Thread>, tokens: map<nat, Token>, chains: map<nat, seq<nat>>,
                        after: map<nat, Token>, chainsAfter: map<nat, seq<nat>>)
    requires ThreadsFit(threads, tokens, chains) && Grows(tokens, chains, after, chainsAfter)
    ensures ThreadsFit(threads, after, chainsAfter)
  {
  }

  lemma RevokingKeepsChains(before: map<nat, Token>, after: map<nat, Token>, chains: map<nat, seq<nat>>)
    requires AllChains(before, chains) && OnlyRevokes(before, after)
    ensures AllChains(after, chains)
  {
  }

  lemma RevokingKeepsLists(before: map<nat, Token>, after: map<nat, Token>, chains: map<nat, seq<nat>>)
    requires AllListed(before, chains) && OnlyRevokes(before, after)
    ensures AllListed(after, chains) && Grows(before, chains, after, chains)
  {
  }

  lemma RevokingKeepsInv(s: State, tokens: map<nat, Token>)
    requires Inv(s) && OnlyRevokes(s.tokens, tokens)
    ensures Inv(s.(tokens := tokens))
  {
    RevokingKeepsChains(s.tokens, tokens, s.chains);
    RevokingKeepsLists(s.tokens, tokens, s.chains);
    ThreadsStillFit(s.threads, s.tokens, s.chains, tokens, s.chains);
  }

  lemma LoginKeepsChains(s: State, id: nat, family: nat, user: nat)
    requires AllChains(s.tokens, s.chains) && id !in s.tokens && family !in s.chains
    ensures AllChains(LoginStep(s, id, family, user).tokens, LoginStep(s, id, family, user).chains)
  {
  }

  lemma LoginKeepsLists(s: State, id: nat, family: nat, user: nat)
    requires AllListed(s.tokens, s.chains) && id !in s.tokens && family !in s.chains
    ensures
      var next := LoginStep(s, id, family, user);
      AllListed(next.tokens, next.chains) && Grows(s.tokens, s.chains, next.tokens, next.chains)
  {
  }

  lemma LoginKeepsInv(s: State, id: nat, family: nat, user: nat)
    requires Inv(s)
    ensures Inv(LoginStep(s, id, family, user))
  {
    if id !in s.tokens && family !in s.chains {
      var next := LoginStep(s, id, family, user);
      LoginKeepsChains(s, id, family, user);
      LoginKeepsLists(s, id, family, user);
      ThreadsStillFit(s.threads, s.tokens, s.chains, next.tokens, next.chains);
    }
  }

  lemma KillKeepsInv(s: State, thread: nat)
    requires Inv(s)
    ensures Inv(KillStep(s, thread))
  {
    if thread in s.threads && s.threads[thread].Killing? {
      var next := KillStep(s, thread);
      RevokingKeepsInv(s, next.tokens);
    }
  }

  /** Only the last token of a chain can be live. */
  lemma LiveIsLast(s: State, id: nat)
    requires Inv(s) && Live(s, id)
    ensures
      var ids := s.chains[s.tokens[id].family];
      ids[|ids| - 1] == id
  {
  }

  lemma ExtendedIsChain(tokens: map<nat, Token>, family: nat, ids: seq<nat>, id: nat, next: nat, user: nat)
    requires IsChain(tokens, family, ids) && ids[|ids| - 1] == id && next !in tokens
    ensures IsChain(tokens[next := Token(family, user, false, None)][id := tokens[id].(revoked := true, replacedBy := Some(next))],
                    family, ids + [next])
  {
  }

  lemma ChainElsewhere(tokens: map<nat, Token>, after: map<nat, Token>, family: nat, ids: seq<nat>)
    requires IsChain(tokens, family, ids)
    requires forall id :: id in tokens && tokens[id].family == family ==> id in after && after[id] == tokens[id]
    ensures IsChain(after, family, ids)
  {
  }

  lemma RotateKeepsChains(s: State, thread: nat, next: nat)
    requires Inv(s) && thread in s.threads && s.threads[thread].Rotating? && next !in s.tokens
    requires Live(s, s.threads[thread].id)
    ensures AllChains(RotateStep(s, thread, next).tokens, RotateStep(s, thread, next).chains)
    ensures AllListed(RotateStep(s, thread, next).tokens, RotateStep(s, thread, next).chains)
  {
    var id, stored := s.threads[thread].id, s.threads[thread].token;
    assert ThreadFits(s.threads[thread], s.tokens, s.chains);
    var after := RotateStep(s, thread, next);
    LiveIsLast(s, id);
    forall family | family in after.chains ensures IsChain(after.tokens, family, after.chains[family]) {
      if family == stored.family {
        ExtendedIsChain(s.tokens, family, s.chains[family], id, next, stored.user);
      } else {
        ChainElsewhere(s.tokens, after.tokens, family, s.chains[family]);
      }
    }
  }

  lemma RotateKeepsThreads(s: State, thread: nat, next: nat)
    requires Inv(s) && thread in s.threads && s.threads[thread].Rotating? && next !in s.tokens
    requires Live(s, s.threads[thread].id)
    ensures
      var after := RotateStep(s, thread, next);
      ThreadsFit(after.threads, after.tokens, after.chains)
  {
  }

  lemma RotateKeepsInv(s: State, thread: nat, next: nat)
    requires Inv(s)
    ensures Inv(RotateStep(s, thread, next))
  {
    if thread in s.threads && s.threads[thread].Rotating? && next !in s.tokens {
      assert ThreadFits(s.threads[thread], s.tokens, s.chains);
      if Live(s, s.threads[thread].id) {
        RotateKeepsChains(s, thread, next);
        RotateKeepsThreads(s, thread, next);
      }
    }
  }

  lemma ReadKeepsInv(s: State, thread: nat, id: nat, genuine: bool, usable: bool)
    requires Inv(s)
    ensures Inv(ReadStep(s, thread, id, genuine, usable))
  {
  }

  lemma RejectingKeepsInv(s: State, thread: nat)
    requires Inv(s)
    ensures Inv(s.(threads := s.threads[thread := Rejected]))
  {
  }

  lemma RevocationsOnlyRevoke(tokens: map<nat, Token>, id: nat, user: nat)
    ensures OnlyRevokes(tokens, RevokedOne(tokens, id)) && OnlyRevokes(tokens, RevokedAll(tokens, user))
  {
  }

  lemma NextKeepsInv(s: State, e: Event)
    requires Inv(s)
    ensures Inv(Next(s, e))
  {
    match e
    case Login(id, family, user) => LoginKeepsInv(s, id, family, user);
    case Read(thread, id, genuine, usable) => ReadKeepsInv(s, thread, id, genuine, usable);
    case Kill(thread) => KillKeepsInv(s, thread);
    case Rotate(thread, next) => RotateKeepsInv(s, thread, next);
    case RevokeOne(id) =>
      RevocationsOnlyRevoke(s.tokens, id, 0);
      RevokingKeepsInv(s, RevokedOne(s.tokens, id));
    case RevokeAll(user) =>
      RevocationsOnlyRevoke(s.tokens, 0, user);
      RevokingKeepsInv(s, RevokedAll(s.tokens, user));
  }

  /**
    Over every run of any number of clients: the tokens of a family form one chain, in which every token
    but the last is revoked and points at its successor, and the last points nowhere.
   */
  lemma {:induction false} FamiliesAreChains(events: seq<Event>)
    ensures
      var s := Run(EMPTY, events);
      && Inv(s)
      && (forall family :: family in s.chains ==> IsChain(s.tokens, family, s.chains[family]))
      && (forall id :: id in s.tokens ==> s.tokens[id].family in s.chains && id in s.chains[s.tokens[id].family])
  {
    if events != [] {
      FamiliesAreChains(events[..|events| - 1]);
      NextKeepsInv(Run(EMPTY, events[..|events| - 1]), events[|events| - 1]);
    }
  }

  /** So a family has at most one live token. */
  lemma OneLiveTokenAFamily(events: seq<Event>, a: nat, b: nat)
    requires Live(Run(EMPTY, events), a) && Live(Run(EMPTY, events), b)
    requires Run(EMPTY, events).tokens[a].family == Run(EMPTY, events).tokens[b].family
    ensures a == b
  {
    FamiliesAreChains(events);
    LiveIsLast(Run(EMPTY, events), a);
    LiveIsLast(Run(EMPTY, events), b);
  }

  // ---------------------------------------------------------------- dead families

  ghost predicate Dead(s: State, family: nat) {
    forall id :: id in s.tokens && s.tokens[id].family == family ==> s.tokens[id].revoked
  }

  lemma KillLeavesNoneAlive(s: State, thread: nat)
    requires Inv(s) && thread in s.threads && s.threads[thread].Killing?
    ensures Dead(KillStep(s, thread), s.threads[thread].family) && s.threads[thread].family in KillStep(s, thread).chains
  {
  }

  lemma DeadStaysDead(s: State, e: Event, family: nat)
    requires Inv(s) && family in s.chains && Dead(s, family)
    ensures family in Next(s, e).chains && Dead(Next(s, e), family)
  {
    if e.Rotate? && e.thread in s.threads && s.threads[e.thread].Rotating? {
      assert ThreadFits(s.threads[e.thread], s.tokens, s.chains);
    }
  }

  /**
    After a reuse was detected, or once a family has no live token for any other reason, nothing ever
    makes a token of that family live again: not even refreshes that had read a live token before.
   */
  lemma {:induction false} DeadForever(s: State, family: nat, events: seq<Event>)
    requires Inv(s) && family in s.chains && Dead(s, family)
    ensures Inv(Run(s, events)) && family in Run(s, events).chains && Dead(Run(s, events), family)
  {
    if events != [] {
      DeadForever(s, family, events[..|events| - 1]);
      NextKeepsInv(Run(s, events[..|events| - 1]), events[|events| - 1]);
      DeadStaysDead(Run(s, events[..|events| - 1]), events[|events| - 1], family);
    }
  }

  lemma ReuseKillsForGood(s: State, thread: nat, events: seq<Event>)
    requires Inv(s) && thread in s.threads && s.threads[thread].Killing?
    ensures Dead(Run(Next(s, Kill(thread)), events), s.threads[thread].family)
  {
    NextKeepsInv(s, Kill(thread));
    KillLeavesNoneAlive(s, thread);
    DeadForever(Next(s, Kill(thread)), s.threads[thread].family, events);
  }

  // ---------------------------------------------------------------- no forks

  predicate Replaced(s: State, id: nat) {
    id in s.tokens && s.tokens[id].revoked && s.tokens[id].replacedBy.Some?
  }

  lemma StepKeepsLink(s: State, e: Event, id: nat)
    requires Inv(s) && Replaced(s, id)
    ensures Replaced(Next(s, e), id) && Next(s, e).tokens[id].replacedBy == s.tokens[id].replacedBy
  {
  }

  /** A successor is for good: no later refresh of the same token gives it another one. */
  lemma {:induction false} LinksAreFinal(s: State, id: nat, events: seq<Event>)
    requires Inv(s) && Replaced(s, id)
    ensures Inv(Run(s, events)) && Replaced(Run(s, events), id)
    ensures Run(s, events).tokens[id].replacedBy == s.tokens[id].replacedBy
  {
    if events != [] {
      LinksAreFinal(s, id, events[..|events| - 1]);
      NextKeepsInv(Run(s, events[..|events| - 1]), events[|events| - 1]);
      StepKeepsLink(Run(s, events[..|events| - 1]), events[|events| - 1], id);
    }
  }

  /** Of two refreshes that both read the token live, whoever rotates second is refused, whatever happened in between. */
  lemma SecondRefreshIsRefused(s: State, first: nat, second: nat, next: nat, other: nat, between: seq<Event>)
    requires Inv(s) && first in s.threads && second in s.threads && first != second
    requires s.threads[first].Rotating? && Live(s, s.threads[first].id) && next !in s.tokens
    requires
      var after := Run(Next(s, Rotate(first, next)), between);
      && second in after.threads && after.threads[second].Rotating? && other !in after.tokens
      && after.threads[second].id == s.threads[first].id
    ensures
      var after := Run(Next(s, Rotate(first, next)), between);
      && Next(after, Rotate(second, other)).threads[second] == Rejected
      && Next(after, Rotate(second, other)).tokens == after.tokens
  {
    assert ThreadFits(s.threads[first], s.tokens, s.chains);
    NextKeepsInv(s, Rotate(first, next));
    LinksAreFinal(Next(s, Rotate(first, next)), s.threads[first].id, between);
  }

  // ---------------------------------------------------------------- whole refreshes

  /** Only tokens of this kind are revoked, and nothing else about them or any other token changes. */
  ghost predicate RevokesExactly(before: map<nat, Token>, after: map<nat, Token>, which: Token -> bool) {
    && after.Keys == before.Keys
    && forall id :: id in before ==>
         after[id] == Token(before[id].family, before[id].user, before[id].revoked || which(before[id]), before[id].replacedBy)
  }

  /**
    What a refresh ends with when nothing comes in between: a genuine, live and usable token is revoked
    and linked to its successor, the only new token; a genuine revoked one costs its whole family every
    live token; any other is refused without a trace.
   */
  ghost predicate RefreshEnds(s: State, after: State, thread: nat, id: nat, genuine: bool, usable: bool, next: nat) {
    && thread in after.threads
    && if !genuine || id !in s.tokens || (!s.tokens[id].revoked && !usable) then
         after.tokens == s.tokens && after.threads[thread] == Rejected
       else if s.tokens[id].revoked then
         && RevokesExactly(s.tokens, after.tokens, (token: Token) => token.family == s.tokens[id].family)
         && after.threads[thread] == Rejected
       else
         && after.threads[thread] == Issued(next)
         && after.tokens == s.tokens[next := Token(s.tokens[id].family, s.tokens[id].user, false, None)]
                                    [id := Token(s.tokens[id].family, s.tokens[id].user, true, Some(next))]
  }

  lemma UndisturbedRefresh(s: State, thread: nat, id: nat, genuine: bool, usable: bool, next: nat)
    requires Inv(s) && thread !in s.threads && next !in s.tokens
    ensures
      var read := Next(s, Read(thread, id, genuine, usable));
      RefreshEnds(s, Next(Next(read, Kill(thread)), Rotate(thread, next)), thread, id, genuine, usable, next)
  {
    if id in s.tokens {
      assert s.tokens[id].replacedBy.Some? || s.tokens[id].family in s.chains;
    }
  }

  /** A sign-in starts a family with one live token; the two revocations take exactly what they name. */
  lemma SignInAndRevocations(s: State, id: nat, family: nat, user: nat)
    ensures id !in s.tokens && family !in s.chains ==>
      Next(s, Login(id, family, user)).tokens == s.tokens[id := Token(family, user, false, None)]
    ensures id in s.tokens ==>
      && Next(s, RevokeOne(id)).tokens == s.tokens[id := s.tokens[id].(revoked := true)]
      && Next(s, RevokeOne(id)).threads == s.threads
    ensures RevokesExactly(s.tokens, Next(s, RevokeAll(user)).tokens, (token: Token) => token.user == user)
    ensures Next(s, RevokeAll(user)).threads == s.threads
  {
  }
}
