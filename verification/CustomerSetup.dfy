/**
 Making the provider's customer for one user and mode: the database row with its creation key, the
 provider with its 24-hour memory of idempotency keys, and any number of callers interleaved at
 every await.  Times are in microseconds; the creation key is drawn when the row commits.
 */
module CustomerSetup {
  import opened Wrappers

  const SECOND: nat := 1_000_000
  const HOUR: nat := 3600 * SECOND
  const GUARD: nat := 23 * HOUR
  const REPLAY_WINDOW: nat := 24 * HOUR
  // The provider context gives up after this long; a request sent within it arrives within it.
  const PATIENCE: nat := 20 * SECOND

  datatype Row = Row(key: nat, created: nat, customer: Option<nat>)

  // ---------------------------------------------------------------- the table

  /** The row for one user and mode; `userExists` is the foreign key's target. */
  class BillingCustomers {
    var row: Option<Row>
    var userExists: bool

    constructor (userExists: bool)
      ensures row == None && this.userExists == userExists
    {
      row := None;
      this.userExists := userExists;
    }

    /** None is the integrity error raised when the user is gone. */
    method Reserve(key: nat, now: nat) returns (r: Option<Row>)
      modifies this`row
      ensures old(row).Some? ==> r == old(row) && row == old(row)
      ensures old(row).None? && userExists ==> r == Some(Row(key, now, None)) && row == r
      ensures old(row).None? && !userExists ==> r == None && row == None
    {
      if row.Some? {
        return row;
      }
      if !userExists {
        return None;
      }
      row := Some(Row(key, now, None));
      return row;
    }

    /** The first customer bound stays; every caller is told that one. */
    method Bind(customer: nat) returns (r: Option<nat>)
      modifies this`row
      ensures old(row).None? ==> r == None && row == None
      ensures old(row).Some? ==>
                && r == (if old(row).value.customer.Some? then old(row).value.customer else Some(customer))
                && row == Some(old(row).value.(customer := r))
    {
      if row.None? {
        return None;
      }
      if row.value.customer.None? {
        row := Some(row.value.(customer := Some(customer)));
      }
      return row.value.customer;
    }
  }

  // ---------------------------------------------------------------- the whole system

  datatype Outcome = Customer(id: nat) | Reconciliation | Unavailable | Missing

  /** `since` is when the caller entered the provider context. */
  datatype Caller =
    | Entered(since: nat)
    | NoRow(since: nat)
    | Drafted(since: nat, created: nat)
    | Clashed(since: nat)
    | Holding(since: nat, row: Row)
    | Checked(since: nat, row: Row)
    | Made(since: nat, id: nat)
    | Bound(since: nat)
    | Finished(outcome: Outcome)

  /** What the provider remembers of a creation key: the customer it made, and when. */
  datatype Memory = Memory(id: nat, at: nat)

  datatype State = State(
    now: nat,
    userExists: bool,
    issued: seq<Row>,
    row: Option<Row>,
    customers: seq<nat>,
    replay: map<nat, Memory>,
    callers: seq<Caller>)

  datatype Event =
    | Tick(elapsed: nat)
    | Arrive
    | Get(c: nat)
    | Draft(c: nat)
    | Insert(c: nat)
    | Refetch(c: nat)
    | Check(c: nat)
    | Create(c: nat)
    | Update(c: nat)
    | Select(c: nat)
    | Abandon(c: nat)
    | DeleteUser
    | Forget(key: nat)

  function Initial(): State {
    State(0, true, [], None, [], map[], [])
  }

  function To(s: State, c: nat, p: Caller): State
    requires c < |s.callers|
  {
    s.(callers := s.callers[c := p])
  }

  function DoInsert(s: State, c: nat): State
    requires c < |s.callers| && s.callers[c].Drafted?
  {
    var Drafted(since, created) := s.callers[c];
    if s.row.Some? then To(s, c, Clashed(since))
    else if !s.userExists then To(s, c, Finished(Missing))
    else
      var row := Row(|s.issued|, created, None);
      To(s.(issued := s.issued + [row], row := Some(row)), c, Holding(since, row))
  }

  function DoCheck(s: State, c: nat): State
    requires c < |s.callers| && s.callers[c].Holding?
  {
    var Holding(since, row) := s.callers[c];
    To(s, c,
       if row.customer.Some? then Finished(Customer(row.customer.value))
       else if s.now >= row.created + GUARD then Finished(Reconciliation)
       else Checked(since, row))
  }

  function DoCreate(s: State, c: nat): State
    requires c < |s.callers| && s.callers[c].Checked?
  {
    var Checked(since, row) := s.callers[c];
    if s.now > since + PATIENCE then To(s, c, Finished(Unavailable))
    else if row.key in s.replay then To(s, c, Made(since, s.replay[row.key].id))
    else
      To(s.(customers := s.customers + [row.key], replay := s.replay[row.key := Memory(|s.customers|, s.now)]),
         c, Made(since, |s.customers|))
  }

  function DoUpdate(s: State, c: nat): State
    requires c < |s.callers| && s.callers[c].Made?
  {
    var Made(since, id) := s.callers[c];
    To(if s.row.Some? && s.row.value.customer.None? then s.(row := Some(s.row.value.(customer := Some(id)))) else s,
       c, Bound(since))
  }

  function DoSelect(s: State, c: nat): State
    requires c < |s.callers| && s.callers[c].Bound?
  {
    To(s, c, Finished(if s.row.Some? && s.row.value.customer.Some? then Customer(s.row.value.customer.value) else Missing))
  }

  function Step(s: State, e: Event): State {
    match e
    case Tick(d) => s.(now := s.now + d)
    case Arrive => s.(callers := s.callers + [Entered(s.now)])
    case Get(c) =>
      if c < |s.callers| && s.callers[c].Entered?
      then To(s, c, if s.row.Some? then Holding(s.callers[c].since, s.row.value) else NoRow(s.callers[c].since)) else s
    case Draft(c) =>
      if c < |s.callers| && s.callers[c].NoRow? then To(s, c, Drafted(s.callers[c].since, s.now)) else s
    case Insert(c) => if c < |s.callers| && s.callers[c].Drafted? then DoInsert(s, c) else s
    case Refetch(c) =>
      if c < |s.callers| && s.callers[c].Clashed?
      then To(s, c, if s.row.Some? then Holding(s.callers[c].since, s.row.value) else Finished(Missing)) else s
    case Check(c) => if c < |s.callers| && s.callers[c].Holding? then DoCheck(s, c) else s
    case Create(c) => if c < |s.callers| && s.callers[c].Checked? then DoCreate(s, c) else s
    case Update(c) => if c < |s.callers| && s.callers[c].Made? then DoUpdate(s, c) else s
    case Select(c) => if c < |s.callers| && s.callers[c].Bound? then DoSelect(s, c) else s
    case Abandon(c) => if c < |s.callers| then To(s, c, Finished(Unavailable)) else s
    case DeleteUser => s.(userExists := false, row := None)
    case Forget(key) =>
      if key in s.replay && s.replay[key].at + REPLAY_WINDOW <= s.now then s.(replay := s.replay - {key}) else s
  }

  function Run(s: State, es: seq<Event>): State
    decreases |es|
  {
    if es == [] then s else Run(Step(s, es[0]), es[1..])
  }

  // ---------------------------------------------------------------- the invariant

  /** At most one row was ever issued; the one in the table, if any, is that row, perhaps bound. */
  ghost predicate RowInv(s: State) {
    && |s.issued| <= 1
    && (|s.issued| == 1 ==> s.issued[0].key == 0 && s.issued[0].created <= s.now && s.issued[0].customer.None?)
    && (s.row.Some? ==> |s.issued| == 1 && s.userExists && FromIssued(s, s.row.value))
    && (s.userExists && |s.issued| == 1 ==> s.row.Some?)
  }

  /** `r` is the issued row, unbound or bound to the only customer. */
  ghost predicate FromIssued(s: State, r: Row) {
    && |s.issued| == 1 && r.key == 0 && r.created == s.issued[0].created
    && (r.customer.Some? ==> r.customer.value == 0 && |s.customers| == 1)
  }

  /** The one customer made is remembered for a full day after the row was drawn up. */
  ghost predicate CustomerInv(s: State) {
    && |s.customers| <= 1
    && (|s.customers| == 1 ==>
          && |s.issued| == 1
          && (0 in s.replay || s.issued[0].created + REPLAY_WINDOW <= s.now))
    && (forall k | k in s.replay :: k == 0 && s.replay[k].id == 0 && |s.customers| == 1 && |s.issued| == 1
                                    && s.issued[0].created <= s.replay[k].at <= s.now)
  }

  ghost predicate CallerInv(s: State, p: Caller) {
    match p
    case Drafted(since, created) => since <= s.now && created <= s.now
    case Holding(since, r) => since <= s.now && FromIssued(s, r)
    case Checked(since, r) => FromIssued(s, r) && since < r.created + GUARD
    case Made(_, id) => id == 0 && |s.customers| == 1
    case Finished(Customer(id)) => id == 0 && |s.customers| == 1
    case Entered(since) => since <= s.now
    case NoRow(since) => since <= s.now
    case Clashed(since) => since <= s.now
    case _ => true
  }

  ghost predicate Inv(s: State) {
    && RowInv(s) && CustomerInv(s)
    && forall c | 0 <= c < |s.callers| :: CallerInv(s, s.callers[c])
  }

  /** What callers know survives any step that keeps the issued row, the customers and the clock. */
  lemma CallersKeep(s: State, t: State)
    requires Inv(s) && t.now >= s.now && |t.callers| >= |s.callers|
    requires s.issued <= t.issued && |t.issued| <= 1 && s.customers <= t.customers && |t.customers| <= 1
    ensures forall c | 0 <= c < |s.callers| :: CallerInv(t, s.callers[c])
  {
    forall c | 0 <= c < |s.callers| ensures CallerInv(t, s.callers[c]) {
      assert CallerInv(s, s.callers[c]);
    }
  }

  lemma CreateKeeps(s: State, c: nat)
    requires Inv(s) && c < |s.callers| && s.callers[c].Checked?
    ensures Inv(DoCreate(s, c))
  {
    assert CallerInv(s, s.callers[c]);
    CallersKeep(s, DoCreate(s, c));
  }

  lemma InsertKeeps(s: State, c: nat)
    requires Inv(s) && c < |s.callers| && s.callers[c].Drafted?
    ensures Inv(DoInsert(s, c))
  {
    assert CallerInv(s, s.callers[c]);
    CallersKeep(s, DoInsert(s, c));
  }

  lemma UpdateKeeps(s: State, c: nat)
    requires Inv(s) && c < |s.callers| && s.callers[c].Made?
    ensures Inv(DoUpdate(s, c))
  {
    assert CallerInv(s, s.callers[c]);
    CallersKeep(s, DoUpdate(s, c));
  }

  /** A caller moves on, and nothing else changes. */
  lemma MoveKeeps(s: State, c: nat, p: Caller)
    requires Inv(s) && c < |s.callers| && CallerInv(s, p)
    ensures Inv(To(s, c, p))
  {
    var t := To(s, c, p);
    assert RowInv(t) && CustomerInv(t);
    hide RowInv, CustomerInv;
    forall d | 0 <= d < |t.callers| ensures CallerInv(t, t.callers[d]) {
      assert CallerInv(s, if d == c then p else s.callers[d]);
    }
  }

  lemma CallerStepKeeps(s: State, e: Event)
    requires Inv(s)
    requires e.Get? || e.Draft? || e.Refetch? || e.Check? || e.Select? || e.Abandon?
    ensures Inv(Step(s, e))
  {
    if e.c < |s.callers| && Step(s, e) != s {
      assert CallerInv(s, s.callers[e.c]) && RowInv(s);
      hide Inv, CustomerInv;
      var p := Step(s, e).callers[e.c];
      assert CallerInv(s, p);
      hide RowInv, CallerInv;
      MoveKeeps(s, e.c, p);
    }
  }

  lemma StepKeeps(s: State, e: Event)
    requires Inv(s)
    ensures Inv(Step(s, e))
  {
    match e
    case Create(c) => if c < |s.callers| && s.callers[c].Checked? { CreateKeeps(s, c); }
    case Insert(c) => if c < |s.callers| && s.callers[c].Drafted? { InsertKeeps(s, c); }
    case Update(c) => if c < |s.callers| && s.callers[c].Made? { UpdateKeeps(s, c); }
    case Tick(_) => CallersKeep(s, Step(s, e));
    case Arrive => CallersKeep(s, Step(s, e));
    case DeleteUser => CallersKeep(s, Step(s, e));
    case Forget(_) => CallersKeep(s, Step(s, e));
    case _ => CallerStepKeeps(s, e);
  }

  lemma {:induction false} RunKeeps(s: State, es: seq<Event>)
    requires Inv(s)
    ensures Inv(Run(s, es))
    decreases |es|
  {
    if es != [] {
      StepKeeps(s, es[0]);
      RunKeeps(Step(s, es[0]), es[1..]);
    }
  }

  // ---------------------------------------------------------------- main results

  /** However callers, deletions, delays and lost replies interleave, one customer is made at most,
      and everybody who is told a customer is told that one. */
  lemma OneCustomerForAll(es: seq<Event>, c: nat, d: nat)
    ensures var s := Run(Initial(), es);
            && |s.customers| <= 1
            && (c < |s.callers| && d < |s.callers| && s.callers[c].Finished? && s.callers[d].Finished?
                && s.callers[c].outcome.Customer? && s.callers[d].outcome.Customer?
                ==> s.callers[c].outcome == s.callers[d].outcome && |s.customers| == 1)
  {
    RunKeeps(Initial(), es);
    var s := Run(Initial(), es);
    if c < |s.callers| && d < |s.callers| {
      assert CallerInv(s, s.callers[c]) && CallerInv(s, s.callers[d]);
    }
  }

  /** The creation key never changes, and a bound customer stays until the user is deleted. */
  lemma BoundOnce(es: seq<Event>, later: seq<Event>)
    ensures var s := Run(Initial(), es); var t := Run(s, later);
            && (s.row.Some? && t.row.Some? ==> t.row.value.key == s.row.value.key && t.row.value.created == s.row.value.created)
            && (s.row.Some? && s.row.value.customer.Some? && t.userExists ==> t.row == s.row)
  {
    RunKeeps(Initial(), es);
    Onward(Run(Initial(), es), later);
  }

  lemma {:induction false} Onward(s: State, es: seq<Event>)
    requires Inv(s)
    ensures var t := Run(s, es);
            && s.issued <= t.issued && Inv(t)
            && (!s.userExists ==> !t.userExists)
            && (s.row.Some? && s.row.value.customer.Some? && t.userExists ==> t.row == s.row)
    decreases |es|
  {
    if es != [] {
      var s' := Step(s, es[0]);
      StepKeeps(s, es[0]);
      StepOnward(s, es[0]);
      Onward(s', es[1..]);
    }
  }

  lemma StepOnward(s: State, e: Event)
    requires Inv(s)
    ensures var t := Step(s, e);
            && s.issued <= t.issued && (!s.userExists ==> !t.userExists)
            && (s.row.Some? && s.row.value.customer.Some? ==> t.row == s.row || (!t.userExists && t.row == None))
  {
  }

  /** Every creation request reaches the provider less than a day after the row was drawn up. */
  lemma CreatedInsideReplayWindow(es: seq<Event>, c: nat)
    requires var s := Run(Initial(), es); c < |s.callers| && s.callers[c].Checked?
    ensures var s := Run(Initial(), es);
            Step(s, Create(c)).callers[c].Made? ==> s.now < s.callers[c].row.created + REPLAY_WINDOW
  {
    RunKeeps(Initial(), es);
    var s := Run(Initial(), es);
    assert CallerInv(s, s.callers[c]);
  }

  /** A caller alone makes the customer, binds it and is told it. */
  lemma AloneSucceeds(s: State, c: nat)
    requires Inv(s) && c < |s.callers| && s.callers[c] == Entered(s.now) && s.userExists && s.row.None?
    ensures var s4 := Step(Step(Step(Step(s, Get(c)), Draft(c)), Insert(c)), Check(c));
            var t := Step(Step(Step(s4, Create(c)), Update(c)), Select(c));
            && |t.callers| == |s.callers| && t.callers[c] == Finished(Customer(0)) && t.customers == [0]
            && t.row == Some(Row(0, s.now, Some(0)))
  {
    var s3 := Step(Step(Step(s, Get(c)), Draft(c)), Insert(c));
    assert s3 == To(s.(issued := [Row(0, s.now, None)], row := Some(Row(0, s.now, None))), c, Holding(s.now, Row(0, s.now, None)));
    var s4 := Step(s3, Check(c));
    assert s4.callers[c] == Checked(s.now, Row(0, s.now, None)) && 0 !in s4.replay;
    var s5 := Step(s4, Create(c));
    assert s5.callers[c] == Made(s.now, 0);
  }

  /** So does one that finds the unbound row of a caller that died, inside the guard, wherever it died: the
      customer is made now, or was made and is handed out again. */
  lemma AloneResumes(s: State, c: nat)
    requires Inv(s) && c < |s.callers| && s.callers[c] == Entered(s.now)
    requires s.row.Some? && s.row.value.customer.None? && s.now < s.row.value.created + GUARD
    ensures var t := Step(Step(Step(Step(Step(s, Get(c)), Check(c)), Create(c)), Update(c)), Select(c));
            && |t.callers| == |s.callers| && t.callers[c] == Finished(Customer(0))
            && t.customers == (if s.customers == [] then [s.row.value.key] else s.customers)
            && t.row == Some(s.row.value.(customer := Some(0)))
  {
    var row := s.row.value;
    var s1 := Step(s, Get(c));
    assert s1 == To(s, c, Holding(s.now, row));
    var s2 := Step(s1, Check(c));
    assert s2 == To(s, c, Checked(s.now, row));
    assert s.customers == [] <==> 0 !in s.replay;
    var s3 := Step(s2, Create(c));
    assert s3.callers[c] == Made(s.now, 0) && s3.row == s.row;
  }

  /** A returning customer is told the customer that is bound, however old the row; nothing is made. */
  lemma ReturningCustomer(s: State, c: nat)
    requires c < |s.callers| && s.callers[c].Entered? && s.row.Some? && s.row.value.customer.Some?
    ensures Step(Step(s, Get(c)), Check(c)) == s.(callers := s.callers[c := Finished(Customer(s.row.value.customer.value))])
  {
    var s1 := Step(s, Get(c));
    assert s1 == To(s, c, Holding(s.callers[c].since, s.row.value));
  }

  /** A caller without a row gets its own, or clashes with one, or finds that the user is gone. */
  lemma InsertedExactlyAs(s: State, c: nat)
    requires c < |s.callers| && s.callers[c].Drafted?
    ensures var p := s.callers[c]; var row := Row(|s.issued|, p.created, None); var t := Step(s, Insert(c));
            && (s.row.Some? ==> t == To(s, c, Clashed(p.since)))
            && (s.row.None? && !s.userExists ==> t == To(s, c, Finished(Missing)))
            && (s.row.None? && s.userExists ==> t.row == Some(row) && t.callers == s.callers[c := Holding(p.since, row)])
  {
  }

  /** A caller whose insert clashed holds the row it clashed with, or finds that the user is gone. */
  lemma ClashedCallerHolds(s: State, c: nat)
    requires c < |s.callers| && s.callers[c].Clashed?
    ensures Step(s, Refetch(c)) ==
            To(s, c, if s.row.Some? then Holding(s.callers[c].since, s.row.value) else Finished(Missing))
  {
  }

  /** A creation is sent only within 20 seconds of entering the provider context, and otherwise the provider is
      unavailable; one that is sent is answered from memory, or makes a customer. */
  lemma CreatedExactlyWhen(s: State, c: nat)
    requires c < |s.callers| && s.callers[c].Checked?
    ensures var p := s.callers[c]; var t := Step(s, Create(c));
            if s.now > p.since + 20_000_000 then t == To(s, c, Finished(Unavailable))
            else if p.row.key in s.replay then t == To(s, c, Made(p.since, s.replay[p.row.key].id))
            else t.customers == s.customers + [p.row.key] && t.callers == s.callers[c := Made(p.since, |s.customers|)]
  {
  }

  /** Reconciliation is asked for exactly by the check of an unbound row that is 23 hours old (in microseconds). */
  lemma ReconciliationExactlyWhen(s: State, e: Event, c: nat)
    requires c < |s.callers| && s.callers[c] != Finished(Reconciliation)
    ensures Step(s, e).callers[c] == Finished(Reconciliation) <==>
            e == Check(c) && s.callers[c].Holding? && s.callers[c].row.customer.None?
            && s.now >= s.callers[c].row.created + 82_800_000_000
  {
  }

  /** Dropping the guard would not do: a retry after the provider forgot the key makes a second one. */
  lemma GuardIsNeeded(s: State, c: nat)
    requires Inv(s) && c < |s.callers| && s.callers[c].Holding? && s.callers[c].row.customer.None?
    requires |s.customers| == 1 && 0 !in s.replay && s.now <= s.callers[c].since + PATIENCE
    ensures Step(s, Check(c)).callers[c] == Finished(Reconciliation)
    ensures |DoCreate(To(s, c, Checked(s.callers[c].since, s.callers[c].row)), c).customers| == 2
  {
    assert CallerInv(s, s.callers[c]);
  }
}
