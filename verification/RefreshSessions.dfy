/**
 Refresh sessions: a key per session, a CSRF key beside it, and a set of session ids per user, each
 with its own lifetime on a clock of whole seconds.  Operations run one at a time.
 */
module RefreshSessions {
  import opened Wrappers

  type User = nat

  datatype Session = Session(user: User, token: string, rememberMe: bool, expires: nat)

  datatype Csrf = Csrf(token: string, expires: nat)

  datatype Index = Index(ids: set<string>, expires: nat)

  datatype State = State(now: nat, sessions: map<string, Session>, csrf: map<string, Csrf>, index: map<User, Index>)

  // ---------------------------------------------------------------- the operations

  function IdsOf(s: State, user: User): set<string> {
    if user in s.index then s.index[user].ids else {}
  }

  /** `lifetime` is the setting in force when the session is stored. */
  function Store(s: State, user: User, id: string, token: string, rememberMe: bool, lifetime: nat): State {
    var expires := s.now + lifetime;
    s.(sessions := s.sessions[id := Session(user, token, rememberMe, expires)],
       csrf := if id in s.csrf then s.csrf[id := s.csrf[id].(expires := expires)] else s.csrf,
       index := s.index[user := Index(IdsOf(s, user) + {id}, expires)])
  }

  function GetOrCreateCsrf(s: State, id: string, drawn: string): State {
    if id !in s.sessions || id in s.csrf then s
    else s.(csrf := s.csrf[id := Csrf(drawn, s.sessions[id].expires)])
  }

  function DeleteAll(s: State, user: User): State {
    s.(sessions := s.sessions - IdsOf(s, user), csrf := s.csrf - IdsOf(s, user), index := s.index - {user})
  }

  function Later(s: State, elapsed: nat): State {
    var now := s.now + elapsed;
    State(now,
          map id | id in s.sessions && now < s.sessions[id].expires :: s.sessions[id],
          map id | id in s.csrf && now < s.csrf[id].expires :: s.csrf[id],
          map u | u in s.index && now < s.index[u].expires :: s.index[u])
  }

  predicate Verifies(s: State, user: User, id: string, token: string) {
    id in s.sessions && s.sessions[id].user == user && s.sessions[id].token == token
  }

  class RefreshStore {
    var state: State

    constructor (now: nat)
      ensures state == State(now, map[], map[], map[])
    {
      state := State(now, map[], map[], map[]);
    }

    method StoreToken(user: User, id: string, token: string, rememberMe: bool, lifetime: nat)
      modifies this
      ensures state == Store(old(state), user, id, token, rememberMe, lifetime)
      ensures Verifies(state, user, id, token)
    {
      var expires := state.now + lifetime;
      state := state.(sessions := state.sessions[id := Session(user, token, rememberMe, expires)]);
      if id in state.csrf {
        state := state.(csrf := state.csrf[id := state.csrf[id].(expires := expires)]);
      }
      state := state.(index := state.index[user := Index(IdsOf(state, user) + {id}, expires)]);
    }

    method VerifyToken(user: User, id: string, token: string) returns (valid: bool)
      ensures valid <==> Verifies(state, user, id, token)
      ensures valid <==> id in state.sessions && state.sessions[id].user == user && state.sessions[id].token == token
    {
      if id !in state.sessions {
        return false;
      }
      return state.sessions[id].user == user && state.sessions[id].token == token;
    }

    method DeleteToken(user: User)
      modifies this
      ensures state == DeleteAll(old(state), user)
    {
      var ids := IdsOf(state, user);
      if ids != {} {
        state := state.(sessions := state.sessions - ids, csrf := state.csrf - ids);
      }
      state := state.(index := state.index - {user});
      assert ids == {} ==> old(state).sessions - ids == old(state).sessions && old(state).csrf - ids == old(state).csrf;
    }
  }

  // ---------------------------------------------------------------- the invariant

  ghost predicate Indexed(s: State, id: string)
    requires id in s.sessions
  {
    var x := s.sessions[id];
    x.user in s.index && id in s.index[x.user].ids && x.expires <= s.index[x.user].expires
  }

  /** Every session is in its owner's index, which outlives it; a CSRF token lives as long as its session. */
  ghost predicate Inv(s: State) {
    && (forall id | id in s.sessions :: s.now < s.sessions[id].expires && Indexed(s, id))
    && (forall id | id in s.csrf :: id in s.sessions && s.csrf[id].expires == s.sessions[id].expires)
  }

  lemma LaterKeeps(s: State, elapsed: nat)
    requires Inv(s)
    ensures Inv(Later(s, elapsed))
  {
    var t := Later(s, elapsed);
    forall id | id in t.sessions ensures Indexed(t, id) {
      assert Indexed(s, id);
    }
  }

  lemma DeleteKeeps(s: State, user: User)
    requires Inv(s)
    ensures Inv(DeleteAll(s, user)) && forall id | id in DeleteAll(s, user).sessions :: s.sessions[id].user != user
    // Nobody else loses a session, unless it went under an id of this user's.
    ensures forall id | id in s.sessions && id !in IdsOf(s, user) ::
              id in DeleteAll(s, user).sessions && DeleteAll(s, user).sessions[id] == s.sessions[id]
  {
    var t := DeleteAll(s, user);
    forall id | id in t.sessions ensures Indexed(t, id) && s.sessions[id].user != user {
      assert Indexed(s, id);
    }
  }

  lemma CsrfKeeps(s: State, id: string, drawn: string)
    requires Inv(s)
    ensures Inv(GetOrCreateCsrf(s, id, drawn))
  {
    forall x | x in s.sessions ensures Indexed(GetOrCreateCsrf(s, id, drawn), x) {
      assert Indexed(s, x);
    }
  }

  /** Storing rewrites the index's lifetime, so it keeps the invariant exactly when every other session
      of the user ends no later than the new one. */
  lemma StoreKeepsExactlyWhen(s: State, user: User, id: string, token: string, rememberMe: bool, lifetime: nat)
    requires Inv(s) && lifetime > 0
    ensures Inv(Store(s, user, id, token, rememberMe, lifetime)) <==>
            forall x | x in s.sessions && x != id && s.sessions[x].user == user :: s.sessions[x].expires <= s.now + lifetime
  {
    var t := Store(s, user, id, token, rememberMe, lifetime);
    assert Indexed(t, id);
    forall x | x in s.sessions && x != id
      ensures Indexed(t, x) <==> (s.sessions[x].user == user ==> s.sessions[x].expires <= s.now + lifetime)
    {
      assert Indexed(s, x);
    }
    if Inv(t) {
      forall x | x in s.sessions && x != id && s.sessions[x].user == user ensures s.sessions[x].expires <= s.now + lifetime {
        assert Indexed(t, x);
      }
    }
  }

  /** A stored session verifies for its lifetime and no longer, for its user and its token alone; other sessions verify
      as they would have. */
  lemma StoredSessionVerifies(s: State, user: User, id: string, token: string, rememberMe: bool, lifetime: nat,
                              elapsed: nat, user': User, id': string, token': string)
    ensures Verifies(Later(Store(s, user, id, token, rememberMe, lifetime), elapsed), user', id', token') <==>
            if id' == id then elapsed < lifetime && user' == user && token' == token
            else Verifies(Later(s, elapsed), user', id', token')
  {
  }

  /** A page of a live session has a CSRF token: the one there is, or the one drawn, for as long as the session lives. */
  lemma PageHasToken(s: State, id: string, drawn: string)
    requires Inv(s)
    ensures var t := GetOrCreateCsrf(s, id, drawn);
            && (id in s.sessions <==> id in t.csrf) && t.sessions == s.sessions && t.index == s.index
            && (id in s.sessions ==> t.csrf[id].expires == s.sessions[id].expires
                                     && t.csrf[id].token == if id in s.csrf then s.csrf[id].token else drawn)
  {
  }

  // ---------------------------------------------------------------- runs under one setting

  datatype Op =
    | Wait(elapsed: nat)
    | Login(user: User, id: string, token: string, rememberMe: bool)
    | Page(id: string, drawn: string)
    | Logout(user: User)

  function Apply(s: State, op: Op, lifetime: nat): State {
    match op
    case Wait(d) => Later(s, d)
    case Login(u, id, token, r) => Store(s, u, id, token, r, lifetime)
    case Page(id, drawn) => GetOrCreateCsrf(s, id, drawn)
    case Logout(u) => DeleteAll(s, u)
  }

  function Run(s: State, ops: seq<Op>, lifetime: nat): State
    decreases |ops|
  {
    if ops == [] then s else Run(Apply(s, ops[0], lifetime), ops[1..], lifetime)
  }

  /** Under one setting no session outlives a session stored now. */
  ghost predicate Short(s: State, lifetime: nat) {
    forall id | id in s.sessions :: s.sessions[id].expires <= s.now + lifetime
  }

  lemma ApplyKeeps(s: State, op: Op, lifetime: nat)
    requires Inv(s) && Short(s, lifetime) && lifetime > 0
    ensures Inv(Apply(s, op, lifetime)) && Short(Apply(s, op, lifetime), lifetime)
  {
    match op
    case Wait(d) => LaterKeeps(s, d);
    case Login(u, id, token, r) => StoreKeepsExactlyWhen(s, u, id, token, r, lifetime);
    case Page(id, drawn) => CsrfKeeps(s, id, drawn);
    case Logout(u) => DeleteKeeps(s, u);
  }

  /** Under one setting, after any operations, every live session is in its owner's index and the index
      lives at least as long; session ids may even be shared between users. */
  lemma {:induction false} SessionsStayIndexed(s: State, ops: seq<Op>, lifetime: nat)
    requires Inv(s) && Short(s, lifetime) && lifetime > 0
    ensures Inv(Run(s, ops, lifetime)) && Short(Run(s, ops, lifetime), lifetime)
    decreases |ops|
  {
    if ops != [] {
      ApplyKeeps(s, ops[0], lifetime);
      SessionsStayIndexed(Apply(s, ops[0], lifetime), ops[1..], lifetime);
    }
  }

  lemma {:induction false} NobodyBack(s: State, ops: seq<Op>, lifetime: nat, user: User)
    requires forall id | id in s.sessions :: s.sessions[id].user != user
    requires forall i | 0 <= i < |ops| && ops[i].Login? :: ops[i].user != user
    ensures forall id | id in Run(s, ops, lifetime).sessions :: Run(s, ops, lifetime).sessions[id].user != user
    decreases |ops|
  {
    if ops != [] {
      assert ops[0].Login? ==> ops[0].user != user;
      NobodyBack(Apply(s, ops[0], lifetime), ops[1..], lifetime, user);
    }
  }

  /** After a user's sessions are deleted none of them verifies until that user stores a new one. */
  lemma DeletedUntilNextLogin(before: seq<Op>, after: seq<Op>, lifetime: nat, user: User, id: string, token: string)
    requires lifetime > 0 && forall i | 0 <= i < |after| && after[i].Login? :: after[i].user != user
    ensures var s := DeleteAll(Run(State(0, map[], map[], map[]), before, lifetime), user);
            !Verifies(Run(s, after, lifetime), user, id, token)
  {
    var start := State(0, map[], map[], map[]);
    SessionsStayIndexed(start, before, lifetime);
    DeleteKeeps(Run(start, before, lifetime), user);
    NobodyBack(DeleteAll(Run(start, before, lifetime), user), after, lifetime, user);
  }

  /** Shortening the setting breaks this: a session stored under the longer one outlives the index, and
      a later deletion misses it. */
  lemma ShorterSettingLosesSessions(user: User, token: string)
    ensures var a := Store(State(0, map[], map[], map[]), user, "a", token, false, 100);
            var b := Store(a, user, "b", token, false, 10);
            Inv(a) && !Inv(b) && Verifies(DeleteAll(Later(b, 10), user), user, "a", token)
  {
    var a := Store(State(0, map[], map[], map[]), user, "a", token, false, 100);
    var b := Store(a, user, "b", token, false, 10);
    assert Indexed(a, "a");
    assert "a" != "b" && b.sessions["a"] == Session(user, token, false, 100);
    assert !Indexed(b, "a");
    assert Later(b, 10).index == map[];
  }
}
