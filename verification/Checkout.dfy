/**
 Concurrent Checkout for one customer and mode: the one-hour reservation row, the provider's
 sessions and subscriptions, and any number of `create_checkout` callers interleaved at every await.

 Database times are in microseconds, provider times in whole seconds.  A creation key is a fresh
 UUID; the n-th reservation ever committed is given the key n.
 */
module Checkout {
  import opened Wrappers

  const SECOND: nat := 1_000_000
  const HOUR: nat := 3600 * SECOND
  const REPLAY_WINDOW: nat := 24 * HOUR
  // The service wants 31 minutes left before it calls the provider; the provider insists on 30.
  const SERVICE_MARGIN: nat := 31 * 60
  const PROVIDER_MARGIN: nat := 30 * 60
  const PAGE: nat := 100

  datatype Reservation = Reservation(key: nat, price: string, expires: nat)

  /** What `int(expires_at.timestamp())` keeps of the reservation's deadline. */
  function DeadlineSeconds(r: Reservation): nat {
    r.expires / SECOND
  }

  // ---------------------------------------------------------------- the reservation table

  function Swept(row: Option<Reservation>, renewal: Reservation, now: nat): Option<Reservation> {
    if row.Some? && row.value.expires <= now then Some(renewal) else row
  }

  /** The row for one user and mode.  `Reserve` is the whole operation run without interruption. */
  class BillingCheckouts {
    var row: Option<Reservation>

    constructor ()
      ensures row == None
    {
      row := None;
    }

    method ReplaceExpired(renewal: Reservation, now: nat)
      modifies this
      ensures row == Swept(old(row), renewal, now)
    {
      if row.Some? && row.value.expires <= now {
        row := Some(renewal);
      }
    }

    method Insert(renewal: Reservation) returns (inserted: bool)
      modifies this
      ensures inserted == old(row).None?
      ensures row == if inserted then Some(renewal) else old(row)
    {
      inserted := row.None?;
      if inserted {
        row := Some(renewal);
      }
    }

    method Reserve(key: nat, price: string, now: nat) returns (r: Reservation)
      modifies this
      ensures row == Some(r)
      ensures now < r.expires
      ensures old(row).Some? && now < old(row).value.expires ==> r == old(row).value
      ensures old(row).None? || old(row).value.expires <= now ==> r == Reservation(key, price, now + 3_600_000_000)
    {
      var renewal := Reservation(key, price, now + HOUR);
      ReplaceExpired(renewal, now);
      if row.Some? {
        return row.value;
      }
      var inserted := Insert(renewal);
      r := renewal;
    }
  }

  // ---------------------------------------------------------------- the whole system

  datatype SessionStatus = Open | Complete | Closed

  datatype Session = Session(key: nat, price: string, expiresAt: nat, status: SessionStatus, created: nat)

  datatype Subscription = Subscription(session: nat, live: bool)

  datatype Outcome = Url(session: nat) | Conflict | Reconciliation | Unavailable

  /** Where one caller stands; the price and the customer are already resolved. */
  datatype Caller =
    | Entered(price: string)
    | Timed(price: string, read: nat)
    | Updated(price: string, read: nat)
    | Missing(price: string, read: nat)
    | Clashed(price: string)
    | Holding(price: string, held: Reservation)
    | Cleared(price: string, held: Reservation)
    | Checked(price: string, held: Reservation)
    | Finished(price: string, outcome: Outcome)

  datatype State = State(
    now: nat,
    history: seq<Reservation>,
    row: Option<Reservation>,
    sessions: seq<Session>,
    replay: map<nat, nat>,
    subs: seq<Subscription>,
    callers: seq<Caller>)

  datatype Event =
    | Tick(elapsed: nat)
    | Arrive(price: string)
    | ReadClock(c: nat)
    | Update(c: nat)
    | Fetch(c: nat)
    | Insert(c: nat)
    | Refetch(c: nat)
    | List(c: nat)
    | Check(c: nat)
    | Create(c: nat)
    | Abandon(c: nat)
    | CompleteSession(i: nat)
    | CloseSession(i: nat)
    | Cancel(i: nat)
    | Forget(key: nat)

  function Initial(): State {
    State(0, [], None, [], map[], [], [])
  }

  function To(s: State, c: nat, p: Caller): State
    requires c < |s.callers|
  {
    s.(callers := s.callers[c := p])
  }

  /** Commits a new reservation under the next unused key. */
  function Commit(s: State, price: string, read: nat): State {
    var renewal := Reservation(|s.history|, price, read + HOUR);
    s.(history := s.history + [renewal], row := Some(renewal))
  }

  function DoUpdate(s: State, c: nat): State
    requires c < |s.callers| && s.callers[c].Timed?
  {
    var Timed(price, read) := s.callers[c];
    var s' := if s.row.Some? && s.row.value.expires <= read then Commit(s, price, read) else s;
    To(s', c, Updated(price, read))
  }

  function DoFetch(s: State, c: nat): State
    requires c < |s.callers| && s.callers[c].Updated?
  {
    var Updated(price, read) := s.callers[c];
    To(s, c, if s.row.Some? then Holding(price, s.row.value) else Missing(price, read))
  }

  function DoInsert(s: State, c: nat): State
    requires c < |s.callers| && s.callers[c].Missing?
  {
    var Missing(price, read) := s.callers[c];
    if s.row.Some? then To(s, c, Clashed(price))
    else
      var s' := Commit(s, price, read);
      To(s', c, Holding(price, s'.row.value))
  }

  predicate AnyLive(subs: seq<Subscription>) {
    exists i | 0 <= i < |subs| :: subs[i].live
  }

  function DoList(s: State, c: nat): State
    requires c < |s.callers| && s.callers[c].Holding?
  {
    var Holding(price, r) := s.callers[c];
    To(s, c,
       if |s.subs| > PAGE then Finished(price, Reconciliation)
       else if AnyLive(s.subs) then Finished(price, Conflict)
       else Cleared(price, r))
  }

  function DoCheck(s: State, c: nat): State
    requires c < |s.callers| && s.callers[c].Cleared?
  {
    var Cleared(price, r) := s.callers[c];
    To(s, c,
       if r.price != price || DeadlineSeconds(r) - s.now / SECOND < SERVICE_MARGIN then Finished(price, Conflict)
       else Checked(price, r))
  }

  /** The provider replays a known key and refuses a new session that ends within 30 minutes. */
  function DoCreate(s: State, c: nat): State
    requires c < |s.callers| && s.callers[c].Checked?
  {
    var Checked(price, r) := s.callers[c];
    if r.key in s.replay then To(s, c, Finished(price, Url(s.replay[r.key])))
    else if DeadlineSeconds(r) - s.now / SECOND < PROVIDER_MARGIN then To(s, c, Finished(price, Unavailable))
    else
      var s' := s.(sessions := s.sessions + [Session(r.key, price, DeadlineSeconds(r), Open, s.now)],
                   replay := s.replay[r.key := |s.sessions|]);
      To(s', c, Finished(price, Url(|s.sessions|)))
  }

  predicate CanComplete(s: State, i: nat) {
    i < |s.sessions| && s.sessions[i].status.Open? && s.now < s.sessions[i].expiresAt * SECOND
  }

  predicate CanForget(s: State, key: nat) {
    key in s.replay && s.replay[key] < |s.sessions| &&
    s.sessions[s.replay[key]].created + REPLAY_WINDOW <= s.now
  }

  /** One atomic step; an event that does not fit the state changes nothing. */
  function Step(s: State, e: Event): State {
    match e
    case Tick(d) => s.(now := s.now + d)
    case Arrive(price) => s.(callers := s.callers + [Entered(price)])
    case ReadClock(c) =>
      if c < |s.callers| && s.callers[c].Entered? then To(s, c, Timed(s.callers[c].price, s.now)) else s
    case Update(c) => if c < |s.callers| && s.callers[c].Timed? then DoUpdate(s, c) else s
    case Fetch(c) => if c < |s.callers| && s.callers[c].Updated? then DoFetch(s, c) else s
    case Insert(c) => if c < |s.callers| && s.callers[c].Missing? then DoInsert(s, c) else s
    case Refetch(c) =>
      if c < |s.callers| && s.callers[c].Clashed? && s.row.Some?
      then To(s, c, Holding(s.callers[c].price, s.row.value)) else s
    case List(c) => if c < |s.callers| && s.callers[c].Holding? then DoList(s, c) else s
    case Check(c) => if c < |s.callers| && s.callers[c].Cleared? then DoCheck(s, c) else s
    case Create(c) => if c < |s.callers| && s.callers[c].Checked? then DoCreate(s, c) else s
    case Abandon(c) => if c < |s.callers| then To(s, c, Finished(s.callers[c].price, Unavailable)) else s
    case CompleteSession(i) =>
      if CanComplete(s, i)
      then s.(sessions := s.sessions[i := s.sessions[i].(status := Complete)], subs := s.subs + [Subscription(i, true)])
      else s
    case CloseSession(i) =>
      if i < |s.sessions| && s.sessions[i].status.Open?
      then s.(sessions := s.sessions[i := s.sessions[i].(status := Closed)]) else s
    case Cancel(i) => if i < |s.subs| then s.(subs := s.subs[i := s.subs[i].(live := false)]) else s
    case Forget(key) => if CanForget(s, key) then s.(replay := s.replay - {key}) else s
  }

  function Run(s: State, es: seq<Event>): State
    decreases |es|
  {
    if es == [] then s else Run(Step(s, es[0]), es[1..])
  }

  // ---------------------------------------------------------------- the invariant

  /** Keys number the reservations; only the last can be unexpired, and it is the row. */
  ghost predicate HistoryInv(s: State) {
    && (forall k | 0 <= k < |s.history| :: s.history[k].key == k && s.history[k].expires <= s.now + HOUR)
    && (forall k | 0 <= k < |s.history| - 1 :: s.history[k].expires <= s.now)
    && s.row == if s.history == [] then None else Some(s.history[|s.history| - 1])
  }

  ghost predicate Issued(s: State, r: Reservation) {
    r.key < |s.history| && s.history[r.key] == r
  }

  /** A session carries exactly its reservation's price and truncated deadline. */
  ghost predicate SessionFits(s: State, i: nat, x: Session) {
    && x.key < |s.history| && x.price == s.history[x.key].price
    && x.expiresAt == DeadlineSeconds(s.history[x.key])
    && x.created <= s.now && x.expiresAt * SECOND <= x.created + HOUR
    && (if x.key in s.replay then s.replay[x.key] == i else x.created + REPLAY_WINDOW <= s.now)
  }

  ghost predicate SessionInv(s: State) {
    && (forall i | 0 <= i < |s.sessions| :: SessionFits(s, i, s.sessions[i]))
    && (forall k | k in s.replay :: s.replay[k] < |s.sessions| && s.sessions[s.replay[k]].key == k)
    && (forall i, j | 0 <= i < j < |s.sessions| :: s.sessions[i].key != s.sessions[j].key)
  }

  ghost predicate SubInv(s: State) {
    && (forall j | 0 <= j < |s.subs| ::
          s.subs[j].session < |s.sessions| && s.sessions[s.subs[j].session].status.Complete?)
    && (forall j, k | 0 <= j < k < |s.subs| :: s.subs[j].session != s.subs[k].session)
  }

  /** No live subscription comes from a reservation older than `key`. */
  ghost predicate NoOlderLive(s: State, key: nat) {
    forall j | 0 <= j < |s.subs| && s.subs[j].live && s.subs[j].session < |s.sessions| ::
      key <= s.sessions[s.subs[j].session].key
  }

  ghost predicate LiveInv(s: State) {
    forall i | 0 <= i < |s.sessions| :: NoOlderLive(s, s.sessions[i].key)
  }

  ghost predicate CallerInv(s: State, p: Caller) {
    match p
    case Timed(_, read) => read <= s.now
    case Updated(_, read) => read <= s.now
    case Missing(_, read) => read <= s.now
    case Holding(_, r) => Issued(s, r)
    case Cleared(_, r) => Issued(s, r) && NoOlderLive(s, r.key)
    case Checked(price, r) => Issued(s, r) && NoOlderLive(s, r.key) && r.price == price
    case Finished(price, Url(i)) => i < |s.sessions| && s.sessions[i].price == price
    case _ => true
  }

  ghost predicate Inv(s: State) {
    && HistoryInv(s) && SessionInv(s) && SubInv(s) && LiveInv(s)
    && forall c | 0 <= c < |s.callers| :: CallerInv(s, s.callers[c])
  }

  /** A session that can still complete belongs to the current reservation. */
  lemma CompletableIsCurrent(s: State, i: nat)
    requires HistoryInv(s) && SessionInv(s) && CanComplete(s, i)
    ensures s.row.Some? && s.sessions[i].key == s.row.value.key == |s.history| - 1
  {
    var k := s.sessions[i].key;
    assert s.sessions[i].expiresAt * SECOND <= s.history[k].expires;
  }

  lemma CommitKeeps(s: State, price: string, read: nat)
    requires Inv(s) && read <= s.now
    requires s.row.Some? ==> s.row.value.expires <= s.now
    ensures Inv(Commit(s, price, read))
  {
    var s' := Commit(s, price, read);
    forall c | 0 <= c < |s'.callers| ensures CallerInv(s', s'.callers[c]) {
      assert CallerInv(s, s.callers[c]);
    }
    forall i | 0 <= i < |s'.sessions| ensures NoOlderLive(s', s'.sessions[i].key) {
      assert NoOlderLive(s, s.sessions[i].key);
    }
  }

  lemma ToKeeps(s: State, c: nat, p: Caller)
    requires Inv(s) && c < |s.callers| && CallerInv(s, p)
    ensures Inv(To(s, c, p))
  {
    var s' := To(s, c, p);
    forall d | 0 <= d < |s'.callers| ensures CallerInv(s', s'.callers[d]) {
      assert CallerInv(s, s'.callers[d]);
    }
    forall i | 0 <= i < |s'.sessions| ensures NoOlderLive(s', s'.sessions[i].key) {
      assert NoOlderLive(s, s.sessions[i].key);
    }
  }

  /** The listing finds nobody live, and no older session can complete any more. */
  lemma ListKeeps(s: State, c: nat)
    requires Inv(s) && c < |s.callers| && s.callers[c].Holding?
    ensures Inv(DoList(s, c))
  {
    assert CallerInv(s, s.callers[c]);
    ToKeeps(s, c, DoList(s, c).callers[c]);
  }

  /** The state after the provider accepts a new session for reservation `r`. */
  function WithSession(s: State, price: string, r: Reservation): State {
    s.(sessions := s.sessions + [Session(r.key, price, DeadlineSeconds(r), Open, s.now)],
       replay := s.replay[r.key := |s.sessions|])
  }

  lemma NewSessionFits(s: State, price: string, r: Reservation)
    requires HistoryInv(s) && SessionInv(s) && Issued(s, r) && r.price == price && r.key !in s.replay
    requires DeadlineSeconds(r) - s.now / SECOND >= PROVIDER_MARGIN
    ensures SessionInv(WithSession(s, price, r))
  {
    ForgottenIsPast(s, r);
  }

  lemma NewSessionIsNotOlder(s: State, price: string, r: Reservation)
    requires SubInv(s) && LiveInv(s) && NoOlderLive(s, r.key)
    ensures SubInv(WithSession(s, price, r)) && LiveInv(WithSession(s, price, r))
  {
    var t := WithSession(s, price, r);
    forall i | 0 <= i < |t.sessions| ensures NoOlderLive(t, t.sessions[i].key) {
      if i < |s.sessions| { assert NoOlderLive(s, s.sessions[i].key); }
    }
  }

  lemma CreateKeeps(s: State, c: nat)
    requires Inv(s) && c < |s.callers| && s.callers[c].Checked?
    ensures Inv(DoCreate(s, c))
  {
    var Checked(price, r) := s.callers[c];
    assert CallerInv(s, s.callers[c]);
    if r.key in s.replay || DeadlineSeconds(r) - s.now / SECOND < PROVIDER_MARGIN {
      ToKeeps(s, c, DoCreate(s, c).callers[c]);
    } else {
      var t := WithSession(s, price, r);
      NewSessionFits(s, price, r);
      NewSessionIsNotOlder(s, price, r);
      CallersKeep(s, t);
      ToKeeps(t, c, Finished(price, Url(|s.sessions|)));
    }
  }

  /** Callers keep what they know when sessions keep their keys and nothing else becomes live. */
  lemma CallersKeep(s: State, t: State)
    requires forall c | 0 <= c < |s.callers| :: CallerInv(s, s.callers[c])
    requires SubInv(s) && t.callers == s.callers && t.history == s.history && t.now >= s.now
    requires |s.sessions| <= |t.sessions| && |t.subs| == |s.subs|
    requires forall i | 0 <= i < |s.sessions| :: t.sessions[i].key == s.sessions[i].key && t.sessions[i].price == s.sessions[i].price
    requires forall j | 0 <= j < |s.subs| :: t.subs[j].session == s.subs[j].session && (t.subs[j].live ==> s.subs[j].live)
    ensures forall c | 0 <= c < |t.callers| :: CallerInv(t, t.callers[c])
  {
    forall c | 0 <= c < |t.callers| ensures CallerInv(t, t.callers[c]) {
      assert CallerInv(s, s.callers[c]);
    }
  }

  /** When the provider has forgotten a key, its reservation is too old for a new session. */
  lemma ForgottenIsPast(s: State, r: Reservation)
    requires HistoryInv(s) && SessionInv(s) && Issued(s, r) && r.key !in s.replay
    requires DeadlineSeconds(r) - s.now / SECOND >= PROVIDER_MARGIN
    ensures forall i | 0 <= i < |s.sessions| :: s.sessions[i].key != r.key
  {
    forall i | 0 <= i < |s.sessions| ensures s.sessions[i].key != r.key {
      assert s.sessions[i].key == r.key ==> DeadlineSeconds(r) * SECOND <= s.now;
    }
  }

  function WithCompleted(s: State, i: nat): State
    requires i < |s.sessions|
  {
    s.(sessions := s.sessions[i := s.sessions[i].(status := Complete)], subs := s.subs + [Subscription(i, true)])
  }

  lemma CompletedFits(s: State, i: nat)
    requires SessionInv(s) && SubInv(s) && CanComplete(s, i)
    ensures SessionInv(WithCompleted(s, i)) && SubInv(WithCompleted(s, i))
  {
  }

  /** Nobody knows a key above the current one, so the new subscription is older than nothing. */
  lemma CompletedIsNotOlder(s: State, i: nat, key: nat)
    requires i < |s.sessions| && SubInv(s) && NoOlderLive(s, key) && key <= s.sessions[i].key
    ensures NoOlderLive(WithCompleted(s, i), key)
  {
  }

  lemma CompleteKeeps(s: State, i: nat)
    requires Inv(s) && CanComplete(s, i)
    ensures Inv(WithCompleted(s, i))
  {
    var s' := WithCompleted(s, i);
    CompletableIsCurrent(s, i);
    CompletedFits(s, i);
    forall j | 0 <= j < |s'.sessions| ensures NoOlderLive(s', s'.sessions[j].key) {
      assert NoOlderLive(s, s.sessions[j].key);
      CompletedIsNotOlder(s, i, s.sessions[j].key);
    }
    forall c | 0 <= c < |s'.callers| ensures CallerInv(s', s'.callers[c]) {
      var p := s.callers[c];
      assert CallerInv(s, p);
      if p.Cleared? || p.Checked? { CompletedIsNotOlder(s, i, p.held.key); }
    }
  }

  /** Steps that issue no reservation and make nothing live only have to keep the first three parts. */
  lemma QuietKeeps(s: State, s': State)
    requires Inv(s) && HistoryInv(s')
    requires forall i | 0 <= i < |s'.sessions| :: SessionFits(s', i, s'.sessions[i])
    requires s'.replay.Keys <= s.replay.Keys && forall k | k in s'.replay :: s'.replay[k] == s.replay[k]
    requires s'.now >= s.now && s'.history == s.history && |s'.sessions| == |s.sessions| && |s'.subs| == |s.subs|
    requires forall i | 0 <= i < |s.sessions| :: s'.sessions[i].key == s.sessions[i].key && s'.sessions[i].price == s.sessions[i].price
    requires forall i | 0 <= i < |s.sessions| :: s.sessions[i].status.Complete? ==> s'.sessions[i].status.Complete?
    requires forall j | 0 <= j < |s.subs| :: s'.subs[j].session == s.subs[j].session && (s'.subs[j].live ==> s.subs[j].live)
    requires forall c | 0 <= c < |s'.callers| :: (c < |s.callers| && s'.callers[c] == s.callers[c]) || s'.callers[c].Entered?
    ensures Inv(s')
  {
    forall i | 0 <= i < |s'.sessions| ensures NoOlderLive(s', s'.sessions[i].key) {
      assert NoOlderLive(s, s.sessions[i].key);
    }
    forall c | 0 <= c < |s'.callers| ensures CallerInv(s', s'.callers[c]) {
      if c < |s.callers| && s'.callers[c] == s.callers[c] { assert CallerInv(s, s.callers[c]); }
    }
  }

  lemma UpdateKeeps(s: State, c: nat)
    requires Inv(s) && c < |s.callers| && s.callers[c].Timed?
    ensures Inv(DoUpdate(s, c))
  {
    var Timed(price, read) := s.callers[c];
    assert CallerInv(s, s.callers[c]);
    if s.row.Some? && s.row.value.expires <= read {
      CommitKeeps(s, price, read);
      ToKeeps(Commit(s, price, read), c, Updated(price, read));
    } else {
      ToKeeps(s, c, Updated(price, read));
    }
  }

  lemma InsertKeeps(s: State, c: nat)
    requires Inv(s) && c < |s.callers| && s.callers[c].Missing?
    ensures Inv(DoInsert(s, c))
  {
    var Missing(price, read) := s.callers[c];
    assert CallerInv(s, s.callers[c]);
    if s.row.Some? {
      ToKeeps(s, c, Clashed(price));
    } else {
      CommitKeeps(s, price, read);
      var s' := Commit(s, price, read);
      ToKeeps(s', c, Holding(price, s'.row.value));
    }
  }

  lemma CallerStepKeeps(s: State, e: Event)
    requires Inv(s)
    requires e.ReadClock? || e.Fetch? || e.Refetch? || e.Check? || e.Abandon?
    ensures Inv(Step(s, e))
  {
    if e.c < |s.callers| && Step(s, e) != s {
      assert CallerInv(s, s.callers[e.c]);
      ToKeeps(s, e.c, Step(s, e).callers[e.c]);
    }
  }

  lemma CloseKeeps(s: State, i: nat)
    requires Inv(s)
    ensures Inv(Step(s, CloseSession(i)))
  {
    var s' := Step(s, CloseSession(i));
    forall k | 0 <= k < |s'.sessions| ensures SessionFits(s', k, s'.sessions[k]) {
      assert SessionFits(s, k, s.sessions[k]);
    }
    QuietKeeps(s, s');
  }

  lemma CancelKeeps(s: State, i: nat)
    requires Inv(s)
    ensures Inv(Step(s, Cancel(i)))
  {
    QuietKeeps(s, Step(s, Cancel(i)));
  }

  lemma ForgetKeeps(s: State, key: nat)
    requires Inv(s)
    ensures Inv(Step(s, Forget(key)))
  {
    var s' := Step(s, Forget(key));
    forall k | 0 <= k < |s'.sessions| ensures SessionFits(s', k, s'.sessions[k]) {
      assert SessionFits(s, k, s.sessions[k]);
    }
    QuietKeeps(s, s');
  }

  lemma TickKeeps(s: State, d: nat)
    requires Inv(s)
    ensures Inv(Step(s, Tick(d)))
  {
    QuietKeeps(s, Step(s, Tick(d)));
  }

  lemma ArriveKeeps(s: State, price: string)
    requires Inv(s)
    ensures Inv(Step(s, Arrive(price)))
  {
    QuietKeeps(s, Step(s, Arrive(price)));
  }

  lemma StepKeeps(s: State, e: Event)
    requires Inv(s)
    ensures Inv(Step(s, e))
  {
    match e
    case Update(c) => if c < |s.callers| && s.callers[c].Timed? { UpdateKeeps(s, c); }
    case Insert(c) => if c < |s.callers| && s.callers[c].Missing? { InsertKeeps(s, c); }
    case List(c) => if c < |s.callers| && s.callers[c].Holding? { ListKeeps(s, c); }
    case Create(c) => if c < |s.callers| && s.callers[c].Checked? { CreateKeeps(s, c); }
    case CompleteSession(i) => if CanComplete(s, i) { CompleteKeeps(s, i); }
    case ReadClock(_) => CallerStepKeeps(s, e);
    case Fetch(_) => CallerStepKeeps(s, e);
    case Refetch(_) => CallerStepKeeps(s, e);
    case Check(_) => CallerStepKeeps(s, e);
    case Abandon(_) => CallerStepKeeps(s, e);
    case CloseSession(i) => CloseKeeps(s, i);
    case Cancel(i) => CancelKeeps(s, i);
    case Forget(key) => ForgetKeeps(s, key);
    case Tick(d) => TickKeeps(s, d);
    case Arrive(price) => ArriveKeeps(s, price);
  }

  lemma {:induction false} RunKeeps(s: State, es: seq<Event>)
    requires Inv(s)
    ensures Inv(Run(s, es))
    decreases |es|
  {
    if es != [] {
      StepKeeps(s, es[0]);
      RunKeeps(Step(s, es[0]), es[1..]);
    }
  }

  // ---------------------------------------------------------------- main results

  /** In every interleaving the customer has at most one live subscription. */
  lemma NeverTwoLive(es: seq<Event>, i: nat, j: nat)
    requires var s := Run(Initial(), es);
             i < |s.subs| && j < |s.subs| && s.subs[i].live && s.subs[j].live
    ensures i == j
  {
    RunKeeps(Initial(), es);
    var s := Run(Initial(), es);
    assert NoOlderLive(s, s.sessions[s.subs[i].session].key);
    assert NoOlderLive(s, s.sessions[s.subs[j].session].key);
  }

  /** Every open session the provider would still let complete carries the current reservation. */
  lemma OpenSessionIsCurrent(es: seq<Event>, i: nat)
    requires CanComplete(Run(Initial(), es), i)
    ensures var s := Run(Initial(), es);
            && s.row.Some? && s.sessions[i].key == s.row.value.key
            && s.sessions[i].price == s.row.value.price
            && s.sessions[i].expiresAt == DeadlineSeconds(s.row.value)
  {
    RunKeeps(Initial(), es);
    CompletableIsCurrent(Run(Initial(), es), i);
  }

  /** Whoever is answered with a session's URL is answered with a session for the price asked for. */
  lemma AnswerIsForThePriceAsked(es: seq<Event>, c: nat)
    requires var s := Run(Initial(), es); c < |s.callers| && s.callers[c].Finished? && s.callers[c].outcome.Url?
    ensures var s := Run(Initial(), es); var i := s.callers[c].outcome.session;
            i < |s.sessions| && s.sessions[i].price == s.callers[c].price
  {
    RunKeeps(Initial(), es);
    var s := Run(Initial(), es);
    assert CallerInv(s, s.callers[c]);
  }

  /** One key never makes two sessions, even after the provider forgot the key. */
  lemma OneSessionPerKey(es: seq<Event>, i: nat, j: nat)
    requires var s := Run(Initial(), es);
             i < |s.sessions| && j < |s.sessions| && s.sessions[i].key == s.sessions[j].key
    ensures i == j
  {
    RunKeeps(Initial(), es);
  }

  /** A reservation changes hands only when none of the sessions made under it can ever complete. */
  lemma ReplacedOnlyWhenDead(es: seq<Event>, e: Event, later: seq<Event>, i: nat)
    requires var s := Run(Initial(), es); var s' := Step(s, e);
             s.row.Some? && s'.row != s.row && i < |s.sessions|
    ensures !CanComplete(Run(Step(Run(Initial(), es), e), later), i)
  {
    var s := Run(Initial(), es);
    RunKeeps(Initial(), es);
    ReplacementKills(s, e, i);
    StaysDead(Step(s, e), later, i);
  }

  lemma ReplacementKills(s: State, e: Event, i: nat)
    requires Inv(s) && s.row.Some? && Step(s, e).row != s.row && i < |s.sessions|
    ensures i < |Step(s, e).sessions| && !CanComplete(Step(s, e), i)
  {
    var s' := Step(s, e);
    assert e.Update? && s.callers[e.c].Timed?;
    assert CallerInv(s, s.callers[e.c]);
    assert SessionFits(s, i, s.sessions[i]);
    assert s'.sessions == s.sessions && s'.now == s.now;
    if CanComplete(s, i) { CompletableIsCurrent(s, i); }
  }

  /** Sessions keep their place and never become completable again: the clock only moves forward. */
  lemma {:induction false} StaysDead(s: State, es: seq<Event>, i: nat)
    requires i < |s.sessions| && !CanComplete(s, i)
    ensures !CanComplete(Run(s, es), i)
    decreases |es|
  {
    if es != [] {
      assert i < |Step(s, es[0]).sessions| && !CanComplete(Step(s, es[0]), i);
      StaysDead(Step(s, es[0]), es[1..], i);
    }
  }

  /** Less than a minute between the service's check and the call keeps the provider's own margin. */
  lemma CheckedCreateIsAccepted(s: State, c: nat, elapsed: nat)
    requires c < |s.callers| && s.callers[c].Cleared?
    requires Step(s, Check(c)).callers[c].Checked? && elapsed < 60 * SECOND
    ensures var s' := Step(Step(Step(s, Check(c)), Tick(elapsed)), Create(c));
            |s'.callers| == |s.callers| && s'.callers[c].Finished? && s'.callers[c].outcome.Url?
  {
    assert (s.now + elapsed) / SECOND <= s.now / SECOND + 60;
  }

  /** The update commits exactly what the table's own sweep would leave. */
  lemma UpdateIsSweep(s: State, c: nat)
    requires c < |s.callers| && s.callers[c].Timed?
    ensures var p := s.callers[c];
            Step(s, Update(c)).row == Swept(s.row, Reservation(|s.history|, p.price, p.read + HOUR), p.read)
  {
  }

  /** With no reservation in force, the four steps of a reservation issue the next key for one hour. */
  lemma AloneReserves(s: State, c: nat)
    requires c < |s.callers| && s.callers[c].Entered?
    requires s.row.Some? ==> s.row.value.expires <= s.now
    ensures var r := Reservation(|s.history|, s.callers[c].price, s.now + HOUR);
            Step(Step(Step(Step(s, ReadClock(c)), Update(c)), Fetch(c)), Insert(c)) ==
            To(s.(history := s.history + [r], row := Some(r)), c, Holding(r.price, r))
  {
    var price := s.callers[c].price;
    var s1 := Step(s, ReadClock(c));
    assert s1 == To(s, c, Timed(price, s.now));
    var s2 := Step(s1, Update(c));
    var s3 := Step(s2, Fetch(c));
    assert s.row.Some? ==> s3.callers[c].Holding?;
  }

  /** The reservation steps with nobody in between leave the row, and give the caller the reservation, that the
      table's own operation returns: the one in force, or a new one. */
  lemma UndisturbedReserve(s: State, c: nat)
    requires Inv(s) && c < |s.callers| && s.callers[c].Entered?
    ensures var price := s.callers[c].price;
            var r := if s.row.Some? && s.now < s.row.value.expires then s.row.value
                     else Reservation(|s.history|, price, s.now + HOUR);
            var t := Step(Step(Step(Step(s, ReadClock(c)), Update(c)), Fetch(c)), Insert(c));
            && t.row == Some(r) && t.callers == s.callers[c := Holding(price, r)]
            && t.history == (if s.row == Some(r) then s.history else s.history + [r])
  {
    if s.row.None? || s.row.value.expires <= s.now {
      AloneReserves(s, c);
    } else {
      var price := s.callers[c].price;
      var s1 := Step(s, ReadClock(c));
      assert s1 == To(s, c, Timed(price, s.now));
      UpdateIsSweep(s1, c);
      var s2 := Step(s1, Update(c));
      assert s2 == To(s, c, Updated(price, s.now));
      assert Step(s2, Fetch(c)) == To(s, c, Holding(price, s.row.value));
    }
  }

  /** A holder of a reservation made this instant, with nothing live, gets an open session for its
      own price, ending when the reservation does (truncated to the second). */
  lemma HolderSucceeds(s: State, c: nat)
    requires Inv(s) && c < |s.callers| && s.callers[c].Holding?
    requires s.callers[c].held.expires == s.now + HOUR && s.callers[c].held.price == s.callers[c].price
    requires s.callers[c].held.key !in s.replay && |s.subs| <= PAGE && !AnyLive(s.subs)
    ensures var r := s.callers[c].held;
            var s' := Step(Step(Step(s, List(c)), Check(c)), Create(c));
            && |s'.callers| == |s.callers| && s'.callers[c] == Finished(r.price, Url(|s.sessions|)) && s'.subs == s.subs
            && s'.sessions == s.sessions + [Session(r.key, r.price, (s.now + HOUR) / SECOND, Open, s.now)]
  {
    var r := s.callers[c].held;
    var s1 := Step(s, List(c));
    assert s1.callers[c] == Cleared(r.price, r);
    var s2 := Step(s1, Check(c));
    assert s2.callers[c] == Checked(r.price, r);
  }

  /** Any holder with nothing live, at any moment: a conflict for another price or with less than 31 minutes left (in whole
      seconds), else the session of the reservation if there is one, else a new open session that ends with it. */
  lemma HolderIsAnswered(s: State, c: nat)
    requires Inv(s) && c < |s.callers| && s.callers[c].Holding? && |s.subs| <= 100 && !AnyLive(s.subs)
    ensures var price := s.callers[c].price; var r := s.callers[c].held;
            var t := Step(Step(Step(s, List(c)), Check(c)), Create(c));
            if r.price != price || r.expires / 1_000_000 < s.now / 1_000_000 + 1860 then
              t == To(s, c, Finished(price, Conflict))
            else if r.key in s.replay then
              t == To(s, c, Finished(price, Url(s.replay[r.key]))) && s.sessions[s.replay[r.key]].key == r.key
            else
              && t.callers == s.callers[c := Finished(price, Url(|s.sessions|))]
              && t.sessions == s.sessions + [Session(r.key, price, r.expires / 1_000_000, Open, s.now)]
              && t == s.(callers := t.callers, sessions := t.sessions, replay := s.replay[r.key := |s.sessions|])
  {
    var price, r := s.callers[c].price, s.callers[c].held;
    var s1 := Step(s, List(c));
    assert s1 == To(s, c, Cleared(price, r));
    var s2 := Step(s1, Check(c));
    assert s2 == To(s, c, s2.callers[c]);
  }

  /** What a listing comes to: more than a page needs reconciliation, anything live is a conflict. */
  lemma ListedExactlyAs(s: State, c: nat)
    requires c < |s.callers| && s.callers[c].Holding?
    ensures var price := s.callers[c].price;
            Step(s, List(c)) == To(s, c, if |s.subs| > 100 then Finished(price, Reconciliation)
                                         else if exists i :: 0 <= i < |s.subs| && s.subs[i].live then Finished(price, Conflict)
                                         else Cleared(price, s.callers[c].held))
  {
  }

  /** The provider's own steps: an open session completes before its end and becomes a live subscription, may be closed,
      and a subscription may be cancelled. */
  lemma WhatTheProviderDoes(s: State, i: nat)
    ensures i < |s.sessions| && s.sessions[i].status == Open && s.now < s.sessions[i].expiresAt * 1_000_000 ==>
              Step(s, CompleteSession(i)) == s.(sessions := s.sessions[i := s.sessions[i].(status := Complete)],
                                                subs := s.subs + [Subscription(i, true)])
    ensures i < |s.sessions| && s.sessions[i].status == Open ==>
              Step(s, CloseSession(i)) == s.(sessions := s.sessions[i := s.sessions[i].(status := Closed)])
    ensures i < |s.subs| ==> Step(s, Cancel(i)) == s.(subs := s.subs[i := s.subs[i].(live := false)])
  {
  }

  /** A caller whose insert clashed holds the reservation it clashed with, or whichever replaced it. */
  lemma ClashedCallerHolds(s: State, c: nat)
    requires c < |s.callers| && s.callers[c].Clashed? && s.row.Some?
    ensures Step(s, Refetch(c)) == To(s, c, Holding(s.callers[c].price, s.row.value))
  {
  }

  /** The provider's part: a known key is answered with its session, and a new session needs half an hour. */
  lemma CreatedExactlyWhen(s: State, c: nat)
    requires c < |s.callers| && s.callers[c].Checked?
    ensures var r := s.callers[c].held; var t := Step(s, Create(c));
            && (r.key in s.replay ==> t == To(s, c, Finished(s.callers[c].price, Url(s.replay[r.key]))))
            && (r.key !in s.replay ==>
                  (t.sessions != s.sessions <==> r.expires / 1_000_000 >= s.now / 1_000_000 + 1800)
                  && (t.sessions == s.sessions ==> t == To(s, c, Finished(s.callers[c].price, Unavailable))))
  {
    assert |s.sessions + [Session(s.callers[c].held.key, s.callers[c].price, 0, Open, 0)]| > |s.sessions|;
  }

  /** The same caller finds a conflict as soon as anything is live. */
  lemma LiveSubscriptionConflicts(s: State, c: nat)
    requires c < |s.callers| && s.callers[c].Holding? && |s.subs| <= PAGE
    ensures Step(s, List(c)).callers[c] == Finished(s.callers[c].price, Conflict) <==> AnyLive(s.subs)
  {
  }

  /** In every run a new session is made only at a moment when the customer has nothing live. */
  lemma NewSessionOnlyWithoutLive(es: seq<Event>, e: Event)
    requires |Step(Run(Initial(), es), e).sessions| > |Run(Initial(), es).sessions|
    ensures !AnyLive(Run(Initial(), es).subs)
  {
    RunKeeps(Initial(), es);
    var s := Run(Initial(), es);
    assert e.Create? && s.callers[e.c].Checked?;
    var r := s.callers[e.c].held;
    assert CallerInv(s, s.callers[e.c]);
    NothingLive(s, r);
  }

  /** While a reservation without a session has time left, nothing older or newer is live. */
  lemma NothingLive(s: State, r: Reservation)
    requires HistoryInv(s) && SessionInv(s) && SubInv(s) && Issued(s, r) && NoOlderLive(s, r.key)
    requires r.key !in s.replay && DeadlineSeconds(r) - s.now / SECOND >= PROVIDER_MARGIN
    ensures !AnyLive(s.subs)
  {
    ForgottenIsPast(s, r);
    assert r.key == |s.history| - 1;
    forall j | 0 <= j < |s.subs| ensures !s.subs[j].live {
      var x := s.sessions[s.subs[j].session];
      assert SessionFits(s, s.subs[j].session, x) && x.key != r.key;
    }
  }

  /** Whoever lists while something is live is never given a session, whatever happens afterwards. */
  lemma {:induction false} TurnedAway(s: State, c: nat, es: seq<Event>)
    requires c < |s.callers| && s.callers[c].Holding? && |s.subs| <= PAGE && AnyLive(s.subs)
    ensures var t := Run(Step(s, List(c)), es);
            c < |t.callers| && t.callers[c].Finished? && !t.callers[c].outcome.Url?
  {
    LiveSubscriptionConflicts(s, c);
    FinishedStays(Step(s, List(c)), c, es);
  }

  lemma {:induction false} FinishedStays(s: State, c: nat, es: seq<Event>)
    requires c < |s.callers| && s.callers[c].Finished? && !s.callers[c].outcome.Url?
    ensures var t := Run(s, es); c < |t.callers| && t.callers[c].Finished? && !t.callers[c].outcome.Url?
    decreases |es|
  {
    if es != [] {
      assert var t := Step(s, es[0]); c < |t.callers| && t.callers[c].Finished? && !t.callers[c].outcome.Url?;
      FinishedStays(Step(s, es[0]), c, es[1..]);
    }
  }
}
