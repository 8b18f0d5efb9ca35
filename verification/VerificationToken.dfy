/**
 Email verification tokens: two Redis keys, `email_verify_token:<token>` naming the user and
 `email_verify_user_token:<user>` naming the user's latest token, with storers and consumers
 interleaved command by command.  A key may expire, or be removed with its account, at any moment.

 A token is drawn at random, here the next unused number.
 */
module VerificationToken {
  import opened Wrappers

  type Token = nat
  type User = nat

  class TokenStore {
    var owner: map<Token, User>
    var latest: map<User, Token>

    constructor ()
      ensures owner == map[] && latest == map[]
    {
      owner, latest := map[], map[];
    }

    /** Uninterrupted, the new token replaces the user's previous one. */
    method Store(user: User, token: Token)
      modifies this
      ensures latest == old(latest)[user := token]
      ensures owner == (if user in old(latest) then old(owner) - {old(latest)[user]} else old(owner))[token := user]
    {
      if user in latest {
        owner := owner - {latest[user]};
      }
      owner := owner[token := user];
      latest := latest[user := token];
    }

    method Consume(token: Token) returns (user: Option<User>)
      modifies this
      ensures user == if token in old(owner) && Lookup(old(latest), old(owner)[token]) == Some(token)
                      then Some(old(owner)[token]) else None
      ensures user.Some? ==> owner == old(owner) - {token} && latest == old(latest) - {user.value}
      ensures user.None? ==> owner == old(owner) && latest == old(latest)
    {
      if token !in owner {
        return None;
      }
      var id := owner[token];
      if id !in latest || latest[id] != token {
        return None;
      }
      owner, latest := owner - {token}, latest - {id};
      return Some(id);
    }
  }

  // ---------------------------------------------------------------- the commands, one at a time

  /** A storer reads the previous token, deletes it, writes the token, then the pointer; a consumer
      watches and reads the token, watches and reads the pointer, then commits. */
  datatype Client =
    | Idle
    | Storing(user: User, token: Token)
    | Replacing(user: User, token: Token, previous: Option<Token>)
    | Writing(user: User, token: Token)
    | Pointing(user: User, token: Token)
    | Watching(dirty: bool, token: Token)
    | Named(dirty: bool, token: Token, user: User)
    | WatchingUser(dirty: bool, token: Token, user: User)
    | Confirmed(dirty: bool, token: Token, user: User)

  datatype State = State(
    owner: map<Token, User>,
    latest: map<User, Token>,
    clients: seq<Client>,
    issuedTo: seq<User>,
    consumed: seq<(Token, User)>)

  datatype Event =
    | Arrive
    | BeginStore(c: nat, user: User)
    | BeginConsume(c: nat, token: Token)
    | Next(c: nat)
    | DropToken(token: Token)
    | DropPointer(user: User)
    | Abandon(c: nat)

  function Initial(): State {
    State(map[], map[], [], [], [])
  }

  function To(s: State, c: nat, p: Client): State
    requires c < |s.clients|
  {
    s.(clients := s.clients[c := p])
  }

  /** A write to these keys spoils every transaction that watches one of them. */
  function Soiled(p: Client, tokens: set<Token>, users: set<User>): Client {
    match p
    case Watching(d, t) => Watching(d || t in tokens, t)
    case Named(d, t, u) => Named(d || t in tokens, t, u)
    case WatchingUser(d, t, u) => WatchingUser(d || t in tokens || u in users, t, u)
    case Confirmed(d, t, u) => Confirmed(d || t in tokens || u in users, t, u)
    case _ => p
  }

  function Soil(s: State, tokens: set<Token>, users: set<User>): State {
    s.(clients := seq(|s.clients|, i requires 0 <= i < |s.clients| => Soiled(s.clients[i], tokens, users)))
  }

  function Advance(s: State, c: nat): State
    requires c < |s.clients|
  {
    match s.clients[c]
    case Idle => s
    case Storing(u, t) => To(s, c, Replacing(u, t, Lookup(s.latest, u)))
    case Replacing(u, t, previous) =>
      if previous.None? then To(s, c, Writing(u, t))
      else To(Soil(s.(owner := s.owner - {previous.value}), {previous.value}, {}), c, Writing(u, t))
    case Writing(u, t) => To(Soil(s.(owner := s.owner[t := u]), {t}, {}), c, Pointing(u, t))
    case Pointing(u, t) => To(Soil(s.(latest := s.latest[u := t]), {}, {u}), c, Idle)
    case Watching(d, t) => To(s, c, if t in s.owner then Named(d, t, s.owner[t]) else Idle)
    case Named(d, t, u) => To(s, c, WatchingUser(d, t, u))
    case WatchingUser(d, t, u) => To(s, c, if Lookup(s.latest, u) == Some(t) then Confirmed(d, t, u) else Idle)
    case Confirmed(d, t, u) =>
      if d then To(s, c, Idle)
      else
        To(Soil(s.(owner := s.owner - {t}, latest := s.latest - {u}, consumed := s.consumed + [(t, u)]), {t}, {u}), c, Idle)
  }

  function Step(s: State, e: Event): State {
    match e
    case Arrive => s.(clients := s.clients + [Idle])
    case BeginStore(c, user) =>
      if c < |s.clients| && s.clients[c].Idle?
      then To(s.(issuedTo := s.issuedTo + [user]), c, Storing(user, |s.issuedTo|)) else s
    case BeginConsume(c, token) =>
      if c < |s.clients| && s.clients[c].Idle? then To(s, c, Watching(false, token)) else s
    case Next(c) => if c < |s.clients| then Advance(s, c) else s
    case DropToken(token) => Soil(s.(owner := s.owner - {token}), {token}, {})
    case DropPointer(user) => Soil(s.(latest := s.latest - {user}), {}, {user})
    case Abandon(c) => if c < |s.clients| then To(s, c, Idle) else s
  }

  function Run(s: State, es: seq<Event>): State
    decreases |es|
  {
    if es == [] then s else Run(Step(s, es[0]), es[1..])
  }

  // ---------------------------------------------------------------- the invariant

  predicate Unwritten(p: Client) {
    p.Storing? || p.Replacing? || p.Writing?
  }

  ghost predicate Unspent(consumed: seq<(Token, User)>, t: Token) {
    forall i | 0 <= i < |consumed| :: consumed[i].0 != t
  }

  /** `t` has not been written yet, and only client `c` will. */
  ghost predicate Awaits(s: State, c: nat, t: Token) {
    && t < |s.issuedTo| && t !in s.owner && Unspent(s.consumed, t)
    && (forall d | 0 <= d < |s.clients| && d != c && Unwritten(s.clients[d]) :: s.clients[d].token != t)
  }

  ghost predicate ClientInv(s: State, c: nat, p: Client) {
    && (Unwritten(p) ==> Awaits(s, c, p.token) && p.user == s.issuedTo[p.token])
    && (p.Named? && !p.dirty ==> Lookup(s.owner, p.token) == Some(p.user))
    && (p.WatchingUser? && !p.dirty ==> Lookup(s.owner, p.token) == Some(p.user))
    && (p.Confirmed? && !p.dirty ==> Lookup(s.owner, p.token) == Some(p.user) && Lookup(s.latest, p.user) == Some(p.token))
  }

  /** A token on record belongs to the user it was issued to and was never consumed. */
  ghost predicate TokenInv(s: State) {
    && (forall t | t in s.owner :: t < |s.issuedTo| && s.owner[t] == s.issuedTo[t] && Unspent(s.consumed, t))
    && (forall i | 0 <= i < |s.consumed| ::
          s.consumed[i].0 < |s.issuedTo| && s.consumed[i].1 == s.issuedTo[s.consumed[i].0])
    && (forall i, j | 0 <= i < j < |s.consumed| :: s.consumed[i].0 != s.consumed[j].0)
  }

  ghost predicate Inv(s: State) {
    TokenInv(s) && forall c | 0 <= c < |s.clients| :: ClientInv(s, c, s.clients[c])
  }

  /** Whoever is not spoiled by a step still knows what it has read. */
  lemma ReadersKeep(s: State, t: State, d: nat, tokens: set<Token>, users: set<User>)
    requires d < |s.clients| == |t.clients| && ClientInv(s, d, s.clients[d])
    requires t.clients[d] == Soiled(s.clients[d], tokens, users) && !Unwritten(s.clients[d])
    requires forall k | k !in tokens :: Lookup(t.owner, k) == Lookup(s.owner, k)
    requires forall u | u !in users :: Lookup(t.latest, u) == Lookup(s.latest, u)
    ensures ClientInv(t, d, t.clients[d])
  {
  }

  /** A storer that has not written yet keeps its token to itself. */
  lemma WritersKeep(s: State, t: State, c: nat, d: nat, tokens: set<Token>, users: set<User>)
    requires c < |s.clients| == |t.clients| && d < |s.clients| && d != c && ClientInv(s, d, s.clients[d]) && Unwritten(s.clients[d])
    requires forall x | 0 <= x < |s.clients| && x != c :: t.clients[x] == Soiled(s.clients[x], tokens, users)
    requires s.issuedTo <= t.issuedTo
    requires s.clients[d].token !in t.owner
    requires Unspent(t.consumed, s.clients[d].token)
    requires Unwritten(t.clients[c]) ==> t.clients[c].token != s.clients[d].token
    ensures ClientInv(t, d, t.clients[d])
  {
    assert t.issuedTo[s.clients[d].token] == s.issuedTo[s.clients[d].token];
  }

  function TokensTouched(p: Client): set<Token> {
    match p
    case Replacing(_, _, Some(previous)) => {previous}
    case Writing(_, k) => {k}
    case Confirmed(false, k, _) => {k}
    case _ => {}
  }

  function UsersTouched(p: Client): set<User> {
    match p
    case Pointing(u, _) => {u}
    case Confirmed(false, _, u) => {u}
    case _ => {}
  }

  lemma AdvanceSoils(s: State, c: nat)
    requires c < |s.clients|
    ensures var t := Advance(s, c); var p := s.clients[c];
            && |t.clients| == |s.clients| && t.issuedTo == s.issuedTo
            && (forall x | 0 <= x < |s.clients| && x != c :: t.clients[x] == Soiled(s.clients[x], TokensTouched(p), UsersTouched(p)))
            && (forall k | k !in TokensTouched(p) :: Lookup(t.owner, k) == Lookup(s.owner, k))
            && (forall u | u !in UsersTouched(p) :: Lookup(t.latest, u) == Lookup(s.latest, u))
  {
  }

  /** The step of client `c` leaves every other client with what it knows. */
  lemma AdvanceKeepsOthers(s: State, c: nat, d: nat)
    requires Inv(s) && c < |s.clients| && d < |s.clients| && d != c
    ensures |Advance(s, c).clients| == |s.clients| && ClientInv(Advance(s, c), d, Advance(s, c).clients[d])
  {
    var t := Advance(s, c);
    var p := s.clients[c];
    assert ClientInv(s, d, s.clients[d]) && ClientInv(s, c, p);
    var tokens, users := TokensTouched(p), UsersTouched(p);
    AdvanceSoils(s, c);
    if Unwritten(s.clients[d]) {
      WritersKeep(s, t, c, d, tokens, users);
    } else {
      ReadersKeep(s, t, d, tokens, users);
    }
  }

  /** A token that is written is the one that awaited it. */
  lemma WritingKeepsTokens(s: State, c: nat, t: State)
    requires TokenInv(s) && c < |s.clients| && s.clients[c].Writing? && ClientInv(s, c, s.clients[c])
    requires t.owner == s.owner[s.clients[c].token := s.clients[c].user] && t.consumed == s.consumed && t.issuedTo == s.issuedTo
    ensures TokenInv(t)
  {
  }

  /** A token that is consumed was on record until now. */
  lemma ConsumingKeepsTokens(s: State, t: State, token: Token, user: User)
    requires TokenInv(s) && Lookup(s.owner, token) == Some(user)
    requires t.owner == s.owner - {token} && t.consumed == s.consumed + [(token, user)] && t.issuedTo == s.issuedTo
    ensures TokenInv(t)
  {
  }

  lemma FewerTokens(s: State, t: State, gone: set<Token>)
    requires TokenInv(s) && t.owner == s.owner - gone && t.consumed == s.consumed && t.issuedTo == s.issuedTo
    ensures TokenInv(t)
  {
  }

  lemma AdvanceKeepsTokens(s: State, c: nat)
    requires Inv(s) && c < |s.clients|
    ensures TokenInv(Advance(s, c))
  {
    assert ClientInv(s, c, s.clients[c]) && TokenInv(s);
    hide TokenInv, Inv;
    var t := Advance(s, c);
    match s.clients[c]
    case Writing(_, _) => WritingKeepsTokens(s, c, t);
    case Confirmed(false, token, user) => ConsumingKeepsTokens(s, t, token, user);
    case Replacing(_, _, Some(previous)) => FewerTokens(s, t, {previous});
    case _ =>
      assert s.owner - {} == s.owner;
      FewerTokens(s, t, {});
  }

  lemma AdvanceKeepsOwn(s: State, c: nat)
    requires Inv(s) && c < |s.clients|
    ensures |Advance(s, c).clients| == |s.clients| && ClientInv(Advance(s, c), c, Advance(s, c).clients[c])
  {
    var t, p := Advance(s, c), s.clients[c];
    assert ClientInv(s, c, p);
    AdvanceSoils(s, c);
    if Unwritten(t.clients[c]) {
      forall d | 0 <= d < |t.clients| && d != c && Unwritten(t.clients[d]) ensures t.clients[d].token != p.token {
        assert Unwritten(s.clients[d]) && s.clients[d].token == t.clients[d].token;
      }
    }
  }

  lemma AdvanceKeeps(s: State, c: nat)
    requires Inv(s) && c < |s.clients|
    ensures Inv(Advance(s, c))
  {
    var t := Advance(s, c);
    AdvanceKeepsTokens(s, c);
    AdvanceKeepsOwn(s, c);
    forall d | 0 <= d < |t.clients| ensures ClientInv(t, d, t.clients[d]) {
      if d != c { AdvanceKeepsOthers(s, c, d); }
    }
  }

  lemma DropKeeps(s: State, tokens: set<Token>, users: set<User>)
    requires Inv(s)
    ensures Inv(Soil(s.(owner := s.owner - tokens, latest := s.latest - users), tokens, users))
  {
    var t := Soil(s.(owner := s.owner - tokens, latest := s.latest - users), tokens, users);
    forall d | 0 <= d < |t.clients| ensures ClientInv(t, d, t.clients[d]) {
      assert ClientInv(s, d, s.clients[d]);
    }
  }

  lemma StoreKeeps(s: State, c: nat, user: User)
    requires Inv(s) && c < |s.clients| && s.clients[c].Idle?
    ensures Inv(Step(s, BeginStore(c, user)))
  {
    var t := Step(s, BeginStore(c, user));
    forall d | 0 <= d < |t.clients| && d != c ensures ClientInv(t, d, t.clients[d]) {
      assert ClientInv(s, d, s.clients[d]);
    }
    forall d | 0 <= d < |s.clients| && Unwritten(s.clients[d]) ensures s.clients[d].token < |s.issuedTo| {
      assert ClientInv(s, d, s.clients[d]);
    }
  }

  lemma MoveKeeps(s: State, c: nat, p: Client)
    requires Inv(s) && c < |s.clients| && (p.Idle? || p.Watching?)
    ensures Inv(To(s, c, p))
  {
    var t := To(s, c, p);
    forall d | 0 <= d < |t.clients| ensures ClientInv(t, d, t.clients[d]) {
      assert ClientInv(s, d, s.clients[d]);
    }
  }

  lemma StepKeeps(s: State, e: Event)
    requires Inv(s)
    ensures Inv(Step(s, e))
  {
    match e
    case Next(c) => if c < |s.clients| { AdvanceKeeps(s, c); }
    case BeginStore(c, user) => if c < |s.clients| && s.clients[c].Idle? { StoreKeeps(s, c, user); }
    case BeginConsume(c, token) => if Step(s, e) != s { MoveKeeps(s, c, Watching(false, token)); }
    case Abandon(c) => if c < |s.clients| { MoveKeeps(s, c, Idle); }
    case DropToken(token) =>
      assert s.latest - {} == s.latest;
      DropKeeps(s, {token}, {});
    case DropPointer(user) =>
      assert s.owner - {} == s.owner;
      DropKeeps(s, {}, {user});
    case Arrive =>
      var t := Step(s, e);
      forall d | 0 <= d < |t.clients| ensures ClientInv(t, d, t.clients[d]) {
        if d < |s.clients| { assert ClientInv(s, d, s.clients[d]); }
      }
  }

  lemma {:induction false} RunKeeps(s: State, es: seq<Event>)
    requires Inv(s)
    ensures Inv(Run(s, es))
    decreases |es|
  {
    if es != [] {
      StepKeeps(s, es[0]);
      RunKeeps(Step(s, es[0]), es[1..]);
    }
  }

  // ---------------------------------------------------------------- main results

  /** Whatever interleaves, a token is consumed at most once, and for the user it was issued to. */
  lemma ConsumedAtMostOnce(es: seq<Event>, i: nat, j: nat)
    requires var consumed := Run(Initial(), es).consumed; i < |consumed| && j < |consumed|
    ensures var s := Run(Initial(), es);
            && (s.consumed[i].0 == s.consumed[j].0 ==> i == j)
            && s.consumed[i].0 < |s.issuedTo| && s.consumed[i].1 == s.issuedTo[s.consumed[i].0]
  {
    RunKeeps(Initial(), es);
  }

  /** A commit succeeds only at an instant when the pointer of the token's user names that token. */
  lemma ConsumedWhileLatest(es: seq<Event>, e: Event)
    requires |Step(Run(Initial(), es), e).consumed| > |Run(Initial(), es).consumed|
    ensures var s := Run(Initial(), es);
            var (token, user) := Step(s, e).consumed[|s.consumed|];
            && Lookup(s.owner, token) == Some(user) && Lookup(s.latest, user) == Some(token)
            && token !in Step(s, e).owner && user !in Step(s, e).latest
  {
    RunKeeps(Initial(), es);
    var s := Run(Initial(), es);
    assert e.Next? && e.c < |s.clients|;
    assert ClientInv(s, e.c, s.clients[e.c]);
  }

  /** A re-issue that moves the pointer spoils a consumer that had read the old one and not committed. */
  lemma ReplacedTokenFails(es: seq<Event>, c: nat, d: nat)
    requires var s := Run(Initial(), es);
             c < |s.clients| && d < |s.clients| && c != d && s.clients[c].Pointing? && s.clients[d].Confirmed?
             && s.clients[d].user == s.clients[c].user
    ensures var s := Run(Initial(), es);
            Step(Step(s, Next(c)), Next(d)).consumed == s.consumed
  {
    var s := Run(Initial(), es);
    assert Advance(s, c).clients[d].dirty;
  }

  /** A consumer alone, holding the user's latest token, succeeds. */
  lemma AloneSucceeds(s: State, c: nat, token: Token, user: User)
    requires c < |s.clients| && s.clients[c].Idle?
    requires Lookup(s.owner, token) == Some(user) && Lookup(s.latest, user) == Some(token)
    ensures var t := Step(Step(Step(Step(Step(s, BeginConsume(c, token)), Next(c)), Next(c)), Next(c)), Next(c));
            t.consumed == s.consumed + [(token, user)] && t.owner == s.owner - {token} && t.latest == s.latest - {user}
  {
    var s1 := Step(s, BeginConsume(c, token));
    var s2 := Step(s1, Next(c));
    assert s2 == To(s, c, Named(false, token, user));
    var s4 := Step(Step(s2, Next(c)), Next(c));
    assert s4 == To(s, c, Confirmed(false, token, user));
  }

  /** A storer alone replaces the user's previous token by the new one, and points to it. */
  lemma StoreAlone(s: State, c: nat, user: User)
    requires c < |s.clients| && s.clients[c].Idle?
    ensures var token := |s.issuedTo|;
            var t := Step(Step(Step(Step(Step(s, BeginStore(c, user)), Next(c)), Next(c)), Next(c)), Next(c));
            && t.owner == (if user in s.latest then s.owner - {s.latest[user]} else s.owner)[token := user]
            && t.latest == s.latest[user := token] && t.issuedTo == s.issuedTo + [user] && t.consumed == s.consumed
  {
    var token := |s.issuedTo|;
    var s1 := Step(s, BeginStore(c, user));
    assert s1.clients[c] == Storing(user, token);
    var s2 := Step(s1, Next(c));
    assert s2.clients[c] == Replacing(user, token, Lookup(s.latest, user));
    var s3 := Step(s2, Next(c));
    assert s3.clients[c] == Writing(user, token);
    var s4 := Step(s3, Next(c));
    assert s4.clients[c] == Pointing(user, token);
  }
}
