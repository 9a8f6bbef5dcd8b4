/** Refresh-token rotation: logins and refreshes interleaved under the device-session row lock. */
module Tokens {
  import opened Options

  datatype Session = Session(user: int, revoked: bool, expires: int)

  datatype Cause = NotRevoked | NewLogin | Rotation

  /** A refresh-token row; its hash is its position. */
  datatype Token = Token(session: nat, user: nat, expires: int, revokedBy: Cause)

  /** A request that has read its token (and keeps that moment as its clock), taken the session row, or also run its revoking update. */
  datatype Request =
    | Read(token: nat, at: int)
    | Holding(session: nat, user: nat, cause: Cause)
    | Revoked(session: nat, user: nat, cause: Cause, revoked: set<nat>)

  const NO_USER := -1
  const TOKEN_TTL := 604800

  datatype State = State(now: int, sessions: seq<Session>, tokens: seq<Token>, requests: map<nat, Request>)

  ghost predicate Init(s: State) {
    s.tokens == [] && s.requests == map[]
  }

  datatype Action =
    | Tick(d: nat)
    | NewSession(expires: int)
    | Login(id: nat, session: nat, user: nat)
    | FirstRead(id: nat, token: nat)
    | Lock(id: nat)
    | Update(id: nat)
    | Commit(id: nat)
    | Abort(id: nat)

  predicate Holds(r: Request, session: nat) {
    !r.Read? && r.session == session
  }

  /** The session row lock is free. */
  predicate RowFree(s: State, session: nat) {
    forall id :: id in s.requests ==> !Holds(s.requests[id], session)
  }

  function LiveTokens(tokens: seq<Token>, session: nat, user: nat): set<nat> {
    set t | 0 <= t < |tokens| && tokens[t].session == session && tokens[t].user == user && tokens[t].revokedBy.NotRevoked?
  }

  predicate Enabled(s: State, a: Action) {
    match a
    case Tick(d) => true
    case NewSession(expires) => true
    // the login path: lock the session row, then check it
    case Login(id, session, user) =>
      && id !in s.requests && session < |s.sessions| && RowFree(s, session)
      && !s.sessions[session].revoked && s.sessions[session].expires > s.now
    // the refresh path reads the token without a lock and refuses it if expired or revoked
    case FirstRead(id, token) =>
      && id !in s.requests && token < |s.tokens|
      && s.tokens[token].expires > s.now + 60 && s.tokens[token].revokedBy.NotRevoked?
    // then locks its session; the token is selected again, but the row object read first is what comes back, so the
    // second look at its revocation is not counted on to refuse anything
    case Lock(id) =>
      && id in s.requests && s.requests[id].Read? && s.requests[id].token < |s.tokens|
      && var t := s.tokens[s.requests[id].token];
      && t.session < |s.sessions| && RowFree(s, t.session)
      && s.sessions[t.session].user == t.user && !s.sessions[t.session].revoked && s.sessions[t.session].expires > s.requests[id].at
    case Update(id) => id in s.requests && s.requests[id].Holding?
    case Commit(id) => id in s.requests && s.requests[id].Revoked? && s.requests[id].session < |s.sessions|
    case Abort(id) => id in s.requests
  }

  function Revoke(tokens: seq<Token>, which: set<nat>, cause: Cause): seq<Token> {
    seq(|tokens|, i requires 0 <= i < |tokens| => if i in which then tokens[i].(revokedBy := cause) else tokens[i])
  }

  function Do(s: State, a: Action): State
    requires Enabled(s, a)
  {
    match a
    case Tick(d) => s.(now := s.now + d)
    case NewSession(expires) => s.(sessions := s.sessions + [Session(NO_USER, false, expires)])
    case Login(id, session, user) => s.(requests := s.requests[id := Holding(session, user, NewLogin)])
    case FirstRead(id, token) => s.(requests := s.requests[id := Read(token, s.now)])
    case Lock(id) =>
      var t := s.tokens[s.requests[id].token];
      s.(requests := s.requests[id := Holding(t.session, t.user, Rotation)])
    // the update sees the rows committed when it runs; its effect stays invisible until the commit
    case Update(id) =>
      var r := s.requests[id];
      s.(requests := s.requests[id := Revoked(r.session, r.user, r.cause, LiveTokens(s.tokens, r.session, r.user))])
    // the first login of a session also links it to its user
    case Commit(id) =>
      var r := s.requests[id];
      var linked := if s.sessions[r.session].user == NO_USER then s.sessions[r.session].(user := r.user) else s.sessions[r.session];
      s.(requests := s.requests - {id},
         sessions := s.sessions[r.session := linked],
         tokens := Revoke(s.tokens, r.revoked, r.cause) + [Token(r.session, r.user, s.now + TOKEN_TTL, NotRevoked)])
    case Abort(id) => s.(requests := s.requests - {id})
  }

  /** An unrevoked token is the newest of its session and user. */
  ghost predicate NewestOnly(tokens: seq<Token>) {
    forall i, j :: 0 <= i < j < |tokens| && tokens[i].session == tokens[j].session && tokens[i].user == tokens[j].user ==>
      !tokens[i].revokedBy.NotRevoked?
  }

  /** One holder per session row, and what a holder is about to revoke is still all that is live. */
  ghost predicate RequestsSound(s: State) {
    && (forall i, j :: i in s.requests && j in s.requests && i != j && !s.requests[i].Read? ==>
          !Holds(s.requests[j], s.requests[i].session))
    && (forall i :: i in s.requests && !s.requests[i].Read? ==> !s.requests[i].cause.NotRevoked?)
    && (forall i :: i in s.requests && s.requests[i].Revoked? ==>
          s.requests[i].revoked == LiveTokens(s.tokens, s.requests[i].session, s.requests[i].user))
  }

  ghost predicate Inv(s: State) {
    NewestOnly(s.tokens) && RequestsSound(s)
  }

  lemma InvKept(s: State, a: Action)
    requires Inv(s) && Enabled(s, a)
    ensures Inv(Do(s, a))
  {
    if a.Commit? {
      CommitKeeps(s, a.id);
    }
  }

  lemma CommitKeeps(s: State, id: nat)
    requires Inv(s) && Enabled(s, Commit(id))
    ensures Inv(Do(s, Commit(id)))
  {
    var r, s' := s.requests[id], Do(s, Commit(id));
    var n := |s.tokens|;
    forall i | 0 <= i < n && s.tokens[i].session == r.session && s.tokens[i].user == r.user
      ensures !s'.tokens[i].revokedBy.NotRevoked?
    {
      assert s.tokens[i].revokedBy.NotRevoked? ==> i in LiveTokens(s.tokens, r.session, r.user);
    }
    forall u | u in s'.requests && s'.requests[u].Revoked?
      ensures s'.requests[u].revoked == LiveTokens(s'.tokens, s'.requests[u].session, s'.requests[u].user)
    {
      assert s'.requests[u] == s.requests[u];
      assert !Holds(s.requests[u], r.session);
      forall t ensures t in LiveTokens(s'.tokens, s.requests[u].session, s.requests[u].user)
                       <==> t in LiveTokens(s.tokens, s.requests[u].session, s.requests[u].user) {
        if 0 <= t < n && t in r.revoked {
          assert s.tokens[t].session == r.session;
        }
      }
    }
  }

  // ---- every run

  ghost predicate Legal(s: State, run: seq<Action>)
    decreases |run|, 0
  {
    run == [] || (Legal(s, run[..|run| - 1]) && Enabled(Exec(s, run[..|run| - 1]), run[|run| - 1]))
  }

  ghost function Exec(s: State, run: seq<Action>): State
    requires Legal(s, run)
    decreases |run|, 1
  {
    if run == [] then s else Do(Exec(s, run[..|run| - 1]), run[|run| - 1])
  }

  lemma {:induction false} InvHolds(s: State, run: seq<Action>)
    requires Init(s) && Legal(s, run)
    ensures Inv(Exec(s, run))
    decreases |run|
  {
    if run != [] {
      InvHolds(s, run[..|run| - 1]);
      InvKept(Exec(s, run[..|run| - 1]), run[|run| - 1]);
    }
  }

  /** However logins and refreshes interleave, a device session has at most one unrevoked token per user, the newest. */
  lemma OneLiveToken(s: State, run: seq<Action>, t: nat, u: nat)
    requires Init(s) && Legal(s, run)
    requires t < u < |Exec(s, run).tokens|
    requires Exec(s, run).tokens[t].session == Exec(s, run).tokens[u].session
    requires Exec(s, run).tokens[t].user == Exec(s, run).tokens[u].user
    ensures !Exec(s, run).tokens[t].revokedBy.NotRevoked?
  {
    InvHolds(s, run);
  }

  lemma TokenStep(s: State, a: Action, t: nat)
    requires Inv(s) && Enabled(s, a) && t < |s.tokens|
    ensures t < |Do(s, a).tokens|
    ensures !s.tokens[t].revokedBy.NotRevoked? ==> !Do(s, a).tokens[t].revokedBy.NotRevoked?
  {
  }

  /** A revoked token stays revoked, so a refresh that first reads it after that is refused in every continuation. */
  lemma {:induction false} RevokedForGood(s: State, run: seq<Action>, more: seq<Action>, t: nat, id: nat)
    requires Init(s) && Legal(s, run) && Legal(s, run + more)
    requires t < |Exec(s, run).tokens| && !Exec(s, run).tokens[t].revokedBy.NotRevoked?
    ensures t < |Exec(s, run + more).tokens| && !Exec(s, run + more).tokens[t].revokedBy.NotRevoked?
    ensures !Enabled(Exec(s, run + more), FirstRead(id, t))
    decreases |more|
  {
    if more == [] {
      assert run + more == run;
    } else {
      var all, n := run + more, |more| - 1;
      assert all[..|all| - 1] == run + more[..n];
      RevokedForGood(s, run, more[..n], t, id);
      InvHolds(s, run + more[..n]);
      TokenStep(Exec(s, run + more[..n]), more[n], t);
    }
  }

  /** A committed login or refresh revokes every earlier token of its session and user. */
  lemma CommitRevokesAll(s: State, id: nat, t: nat)
    requires Inv(s) && Enabled(s, Commit(id)) && t < |s.tokens|
    requires s.tokens[t].session == s.requests[id].session && s.tokens[t].user == s.requests[id].user
    ensures !Do(s, Commit(id)).tokens[t].revokedBy.NotRevoked?
  {
    CommitKeeps(s, id);
  }

  // ---- a login and a refresh that run alone

  /** The session linked to the user if it had none, every live token of theirs revoked, and one new token. */
  function Rotated(s: State, session: nat, user: nat, cause: Cause): State
    requires session < |s.sessions|
  {
    var row := s.sessions[session];
    s.(sessions := s.sessions[session := if row.user == NO_USER then row.(user := user) else row],
       tokens := Revoke(s.tokens, LiveTokens(s.tokens, session, user), cause)
                 + [Token(session, user, s.now + TOKEN_TTL, NotRevoked)])
  }

  predicate SessionServes(s: State, session: nat) {
    session < |s.sessions| && !s.sessions[session].revoked && s.sessions[session].expires > s.now
  }

  predicate Refreshable(s: State, token: nat) {
    && token < |s.tokens| && s.tokens[token].expires > s.now + 60 && s.tokens[token].revokedBy.NotRevoked?
    && SessionServes(s, s.tokens[token].session) && s.sessions[s.tokens[token].session].user == s.tokens[token].user
  }

  ghost predicate Reaches(s: State, t: State) {
    exists run :: Legal(s, run) && Exec(s, run) == t
  }

  lemma ReachesTo(s: State, t: State, a: Action, u: State)
    requires Reaches(s, t) && Enabled(t, a) && u == Do(t, a)
    ensures Reaches(s, u)
  {
    var run :| Legal(s, run) && Exec(s, run) == t;
    var more := run + [a];
    assert more[..|more| - 1] == run;
    assert Legal(s, more) && Exec(s, more) == u;
  }

  lemma ReachesSelf(s: State)
    ensures Reaches(s, s)
  {
    assert Legal(s, []) && Exec(s, []) == s;
  }

  function With(s: State, r: Request): State {
    s.(requests := map[0 := r])
  }

  /** From the row lock on, both kinds of request do the same. */
  lemma RotationRun(s: State, session: nat, user: nat, cause: Cause)
    requires s.requests == map[] && session < |s.sessions| && Reaches(s, With(s, Holding(session, user, cause)))
    ensures Reaches(s, Rotated(s, session, user, cause))
  {
    var held, done := With(s, Holding(session, user, cause)), With(s, Revoked(session, user, cause, LiveTokens(s.tokens, session, user)));
    ReachesTo(s, held, Update(0), done);
    ReachesTo(s, done, Commit(0), Rotated(s, session, user, cause));
  }

  lemma LoginRun(s: State, session: nat, user: nat)
    requires s.requests == map[] && SessionServes(s, session)
    ensures Reaches(s, Rotated(s, session, user, NewLogin))
  {
    ReachesSelf(s);
    ReachesTo(s, s, Login(0, session, user), With(s, Holding(session, user, NewLogin)));
    RotationRun(s, session, user, NewLogin);
  }

  lemma RefreshRun(s: State, token: nat)
    requires s.requests == map[] && Refreshable(s, token)
    ensures Reaches(s, Rotated(s, s.tokens[token].session, s.tokens[token].user, Rotation))
  {
    var t := s.tokens[token];
    ReachesSelf(s);
    ReachesTo(s, s, FirstRead(0, token), With(s, Read(token, s.now)));
    ReachesTo(s, With(s, Read(token, s.now)), Lock(0), With(s, Holding(t.session, t.user, Rotation)));
    RotationRun(s, t.session, t.user, Rotation);
  }

  // ---- any series of such calls

  datatype Call =
    | Wait(d: nat)
    | OpenSession(expires: int)
    | LoginCall(session: nat, user: nat, issued: Option<nat>)
    | RefreshCall(token: nat, fresher: Option<nat>)

  ghost predicate LoginCommits(s: State, session: nat, user: nat, issued: Option<nat>, t: State) {
    if SessionServes(s, session) then issued == Some(|s.tokens|) && t == Rotated(s, session, user, NewLogin)
    else issued == None && t == s
  }

  ghost predicate RefreshCommits(s: State, token: nat, fresher: Option<nat>, t: State) {
    if Refreshable(s, token) then
      fresher == Some(|s.tokens|) && t == Rotated(s, s.tokens[token].session, s.tokens[token].user, Rotation)
    else fresher == None && t == s
  }

  ghost predicate Handled(s: State, c: Call, t: State) {
    match c
    case Wait(d) => t == s.(now := s.now + d)
    case OpenSession(expires) => t == s.(sessions := s.sessions + [Session(NO_USER, false, expires)])
    case LoginCall(session, user, issued) => LoginCommits(s, session, user, issued, t)
    case RefreshCall(token, fresher) => RefreshCommits(s, token, fresher, t)
  }

  lemma CallIsARun(s: State, c: Call, t: State)
    requires s.requests == map[] && Handled(s, c, t)
    ensures Reaches(s, t) && t.requests == map[]
  {
    ReachesSelf(s);
    match c
    case Wait(d) => ReachesTo(s, s, Tick(d), t);
    case OpenSession(expires) => ReachesTo(s, s, NewSession(expires), t);
    case LoginCall(session, user, issued) =>
      if SessionServes(s, session) {
        LoginRun(s, session, user);
      }
    case RefreshCall(token, fresher) =>
      if Refreshable(s, token) {
        RefreshRun(s, token);
      }
  }

  lemma {:induction false} ReachesAlong(s: State, t: State, run: seq<Action>)
    requires Reaches(s, t) && Legal(t, run)
    ensures Reaches(s, Exec(t, run))
    decreases |run|
  {
    if run != [] {
      var n := |run| - 1;
      ReachesAlong(s, t, run[..n]);
      ReachesTo(s, Exec(t, run[..n]), run[n], Exec(t, run));
    }
  }

  lemma CallAfter(s0: State, s: State, c: Call, t: State)
    requires Reaches(s0, s) && s.requests == map[] && Handled(s, c, t)
    ensures Reaches(s0, t) && t.requests == map[]
  {
    CallIsARun(s, c, t);
    var run :| Legal(s, run) && Exec(s, run) == t;
    ReachesAlong(s0, s, run);
  }

  ghost predicate Served(states: seq<State>, calls: seq<Call>) {
    |states| == |calls| + 1 && forall k :: 0 <= k < |calls| ==> Handled(states[k], calls[k], states[k + 1])
  }

  /** Any series of logins and refreshes on new tables is a run, so it leaves at most one live token per session and user. */
  lemma {:induction false} ServiceIsARun(states: seq<State>, calls: seq<Call>)
    requires Served(states, calls) && Init(states[0])
    ensures Reaches(states[0], states[|calls|]) && states[|calls|].requests == map[]
    ensures NewestOnly(states[|calls|].tokens)
    decreases |calls|
  {
    if calls == [] {
      ReachesSelf(states[0]);
    } else {
      var n := |calls| - 1;
      ServiceIsARun(states[..n + 1], calls[..n]);
      CallAfter(states[0], states[n], calls[n], states[n + 1]);
    }
    var run :| Legal(states[0], run) && Exec(states[0], run) == states[|calls|];
    InvHolds(states[0], run);
  }

  lemma RotatedLeavesOne(s: State, session: nat, user: nat, cause: Cause)
    requires session < |s.sessions| && !cause.NotRevoked?
    ensures LiveTokens(Rotated(s, session, user, cause).tokens, session, user) == {|s.tokens|}
  {
    var later := Rotated(s, session, user, cause).tokens;
    forall t ensures t in LiveTokens(later, session, user) <==> t == |s.tokens| {
      if 0 <= t < |s.tokens| {
        assert later[t].revokedBy.NotRevoked? ==> t !in LiveTokens(s.tokens, session, user);
      }
    }
  }

  /** The token just issued can be refreshed d seconds later exactly if the session is the user's, by this login or an
      earlier one, is not over by then, and the token has more than a minute to go. */
  lemma IssuedRefreshable(s: State, session: nat, user: nat, cause: Cause, d: nat)
    requires SessionServes(s, session)
    ensures var later := Rotated(s, session, user, cause).(now := s.now + d);
            Refreshable(later, |s.tokens|) <==>
              s.sessions[session].user in {NO_USER, user} && s.sessions[session].expires > s.now + d && d + 60 < TOKEN_TTL
  {
    var later := Rotated(s, session, user, cause).(now := s.now + d);
    assert later.tokens[|s.tokens|] == Token(session, user, s.now + TOKEN_TTL, NotRevoked);
  }

  lemma {:induction false} ThenDo(s: State, run: seq<Action>, t: State, a: Action, u: State)
    requires Legal(s, run) && Exec(s, run) == t && Enabled(t, a) && u == Do(t, a)
    ensures Legal(s, run + [a]) && Exec(s, run + [a]) == u
  {
    assert (run + [a])[..|run|] == run;
  }

  function Reads(s: State, requests: map<nat, Request>): State {
    s.(requests := requests)
  }

  lemma {:induction false} DoRead(t: State, id: nat, other: map<nat, Request>, token: nat)
    requires id !in other && token < |t.tokens|
    requires t.tokens[token].expires > t.now + 60 && t.tokens[token].revokedBy.NotRevoked?
    ensures Enabled(Reads(t, other), FirstRead(id, token))
    ensures Do(Reads(t, other), FirstRead(id, token)) == Reads(t, other[id := Read(token, t.now)])
  {
  }

  lemma {:induction false} DoLock(t: State, id: nat, other: map<nat, Request>, token: nat, at: int)
    requires id !in other && (forall i :: i in other ==> other[i].Read?)
    requires token < |t.tokens| && t.tokens[token].session < |t.sessions|
    requires var row := t.sessions[t.tokens[token].session];
             row.user == t.tokens[token].user && !row.revoked && row.expires > at
    ensures var s := Reads(t, other[id := Read(token, at)]);
            && Enabled(s, Lock(id))
            && Do(s, Lock(id)) == Reads(t, other[id := Holding(t.tokens[token].session, t.tokens[token].user, Rotation)])
  {
    var s := Reads(t, other[id := Read(token, at)]);
    var held := Holding(t.tokens[token].session, t.tokens[token].user, Rotation);
    assert s.requests[id := held] == other[id := held];
  }

  lemma {:induction false} DoRotate(t: State, id: nat, other: map<nat, Request>, session: nat, user: nat)
    requires id !in other && session < |t.sessions|
    ensures var s := Reads(t, other[id := Holding(session, user, Rotation)]);
            var u := Reads(t, other[id := Revoked(session, user, Rotation, LiveTokens(t.tokens, session, user))]);
            && Enabled(s, Update(id)) && Do(s, Update(id)) == u
            && Enabled(u, Commit(id)) && Do(u, Commit(id)) == Reads(Rotated(t, session, user, Rotation), other)
  {
    var ready := Revoked(session, user, Rotation, LiveTokens(t.tokens, session, user));
    assert other[id := Holding(session, user, Rotation)][id := ready] == other[id := ready];
    assert other[id := ready] - {id} == other;
  }

  /** A refresh that has read its token goes through. */
  lemma {:induction false} RefreshGoesOn(s: State, run: seq<Action>, t: State, id: nat, other: map<nat, Request>, token: nat, at: int)
    requires Legal(s, run) && Exec(s, run) == Reads(t, other[id := Read(token, at)]) && id !in other
    requires forall i :: i in other ==> other[i].Read?
    requires token < |t.tokens| && t.tokens[token].session < |t.sessions|
    requires var row := t.sessions[t.tokens[token].session];
             row.user == t.tokens[token].user && !row.revoked && row.expires > at
    ensures var done := run + [Lock(id)] + [Update(id)] + [Commit(id)];
            && Legal(s, done)
            && Exec(s, done) == Reads(Rotated(t, t.tokens[token].session, t.tokens[token].user, Rotation), other)
  {
    var session, user := t.tokens[token].session, t.tokens[token].user;
    var held := Reads(t, other[id := Holding(session, user, Rotation)]);
    var ready := Reads(t, other[id := Revoked(session, user, Rotation, LiveTokens(t.tokens, session, user))]);
    DoLock(t, id, other, token, at);
    DoRotate(t, id, other, session, user);
    ThenDo(s, run, Reads(t, other[id := Read(token, at)]), Lock(id), held);
    ThenDo(s, run + [Lock(id)], held, Update(id), ready);
    ThenDo(s, run + [Lock(id)] + [Update(id)], ready, Commit(id), Reads(Rotated(t, session, user, Rotation), other));
  }

  lemma {:induction false} BothRead(s: State, token: nat)
    requires s.requests == map[] && Refreshable(s, token)
    ensures var run := [FirstRead(1, token)] + [FirstRead(2, token)];
            Legal(s, run) && Exec(s, run) == Reads(s, map[2 := Read(token, s.now)][1 := Read(token, s.now)])
  {
    var read := Read(token, s.now);
    assert Legal(s, []) && Exec(s, []) == s == Reads(s, map[]);
    DoRead(s, 1, map[], token);
    ThenDo(s, [], s, FirstRead(1, token), Reads(s, map[][1 := read]));
    assert [] + [FirstRead(1, token)] == [FirstRead(1, token)];
    DoRead(s, 2, map[][1 := read], token);
    assert map[][1 := read][2 := read] == map[2 := read][1 := read];
    ThenDo(s, [FirstRead(1, token)], Reads(s, map[][1 := read]), FirstRead(2, token), Reads(s, map[2 := read][1 := read]));
  }

  /** Two refreshes that read a token before either commits. */
  function SpendTwice(token: nat, d: nat): seq<Action> {
    [FirstRead(1, token)] + [FirstRead(2, token)] + [Lock(1)] + [Update(1)] + [Commit(1)] + [Tick(d)]
    + [Lock(2)] + [Update(2)] + [Commit(2)]
  }

  /** A refresh decides by its first read: of two that read a token before either commits both spend it, the second
      however late it gets the lock, even after the session's time; still only the newest token is live. */
  lemma {:induction false} SpentTwice(s: State, token: nat, d: nat)
    requires s.requests == map[] && Refreshable(s, token)
    ensures Legal(s, SpendTwice(token, d))
    ensures var t := Exec(s, SpendTwice(token, d));
            && t.now == s.now + d && |t.tokens| == |s.tokens| + 2
            && LiveTokens(t.tokens, s.tokens[token].session, s.tokens[token].user) == {|s.tokens| + 1}
  {
    var read, session, user := Read(token, s.now), s.tokens[token].session, s.tokens[token].user;
    BothRead(s, token);
    var run := [FirstRead(1, token)] + [FirstRead(2, token)];
    RefreshGoesOn(s, run, s, 1, map[2 := read], token, s.now);
    run := run + [Lock(1)] + [Update(1)] + [Commit(1)];
    var once := Rotated(s, session, user, Rotation);
    var later := once.(now := s.now + d);
    assert map[][2 := read] == map[2 := read];
    ThenDo(s, run, Reads(once, map[2 := read]), Tick(d), Reads(later, map[2 := read]));
    RefreshGoesOn(s, run + [Tick(d)], later, 2, map[], token, s.now);
    RotatedLeavesOne(later, session, user, Rotation);
  }

  class AuthTables {
    var clock: int
    var sessions: seq<Session>
    var tokens: seq<Token>

    ghost function Committed(): State
      reads this
    {
      State(clock, sessions, tokens, map[])
    }

    constructor (clock: int)
      ensures Init(Committed()) && Committed().now == clock && sessions == []
    {
      this.clock, sessions, tokens := clock, [], [];
    }

    /** save_refresh_token. */
    method SaveRefreshToken(session: nat, user: nat, cause: Cause) returns (token: nat)
      modifies this`tokens
      ensures token == |old(tokens)|
      ensures tokens == Revoke(old(tokens), LiveTokens(old(tokens), session, user), cause)
                        + [Token(session, user, clock + TOKEN_TTL, NotRevoked)]
    {
      var live := set t | 0 <= t < |tokens| && tokens[t].session == session && tokens[t].user == user && tokens[t].revokedBy == NotRevoked;
      tokens := Revoke(tokens, live, cause);
      tokens := tokens + [Token(session, user, clock + TOKEN_TTL, NotRevoked)];
      return |tokens| - 1;
    }

    /** issue_auth_tokens, for a user whose password was right: the new token is the session's only live one. */
    method IssueAuthTokens(session: nat, user: nat) returns (token: Option<nat>)
      modifies this
      ensures LoginCommits(old(Committed()), session, user, token, Committed())
      ensures token.Some? <==> session < |old(sessions)| && !old(sessions)[session].revoked && old(sessions)[session].expires > clock
      ensures token.Some? ==> Committed() == Rotated(old(Committed()), session, user, NewLogin)
      ensures token.Some? ==> LiveTokens(tokens, session, user) == {token.value}
      ensures token.None? ==> Committed() == old(Committed())
    {
      if session >= |sessions| || sessions[session].revoked || sessions[session].expires <= clock {
        return None;
      }
      RotatedLeavesOne(Committed(), session, user, NewLogin);
      if sessions[session].user == NO_USER {
        sessions := sessions[session := sessions[session].(user := user)];
      }
      var issued := SaveRefreshToken(session, user, NewLogin);
      return Some(issued);
    }

    /** validate_refresh_and_update_refresh: the presented token is spent, and the new one is the only live one. */
    method RefreshTokens(token: nat) returns (fresher: Option<nat>)
      modifies this
      ensures RefreshCommits(old(Committed()), token, fresher, Committed())
      ensures fresher.Some? <==> Refreshable(old(Committed()), token)
      ensures fresher.Some? <==>
                && token < |old(tokens)| && old(tokens)[token].expires > clock + 60 && old(tokens)[token].revokedBy == NotRevoked
                && old(tokens)[token].session < |old(sessions)|
                && var row := old(sessions)[old(tokens)[token].session];
                   row.user == old(tokens)[token].user && !row.revoked && row.expires > clock
      ensures fresher.Some? ==>
                Committed() == Rotated(old(Committed()), old(tokens)[token].session, old(tokens)[token].user, Rotation)
      ensures fresher.Some? ==> !Refreshable(Committed(), token)
      ensures fresher.Some? ==> LiveTokens(tokens, old(tokens)[token].session, old(tokens)[token].user) == {fresher.value}
      ensures fresher.None? ==> Committed() == old(Committed())
    {
      if token >= |tokens| || tokens[token].expires <= clock + 60 || !tokens[token].revokedBy.NotRevoked? {
        return None;
      }
      var row := tokens[token];
      if row.session >= |sessions| || sessions[row.session].user != row.user {
        return None;
      }
      if sessions[row.session].revoked || sessions[row.session].expires <= clock {
        return None;
      }
      if tokens[token].expires <= clock + 40 {
        return None;
      }
      RotatedLeavesOne(Committed(), row.session, row.user, Rotation);
      assert token in LiveTokens(tokens, row.session, row.user);
      var issued := SaveRefreshToken(row.session, row.user, Rotation);
      assert sessions == sessions[row.session := sessions[row.session]];
      return Some(issued);
    }
  }
}
