/**
 Any number of workers on one outbox: claims, mails, finishes and crashes interleave with each other,
 with new jobs, with operator retries and with the clock.
 */
module OutboxRuns {
  import opened Wrappers
  import opened Outbox

  /** A worker with a leased row in hand, before and after the mail was handed over. */
  datatype Worker = Free | Holding(key: string, leased: Row) | Delivered(key: string, leased: Row, worked: bool)

  /** `claims`, `sends` and `retries` count what ever happened to a job. */
  datatype State = State(
    now: nat,
    rows: Rows,
    leases: nat,
    workers: seq<Worker>,
    claims: map<string, nat>,
    sends: map<string, nat>,
    retries: map<string, nat>)

  datatype Event =
    | Tick(elapsed: nat)
    | Start
    | Queue(key: string, kind: string, payload: string)
    | Claim(w: nat, key: string, at: nat)
    | ClaimNothing(w: nat, at: nat)
    | Skip(w: nat)
    | Send(w: nat, worked: bool)
    | Finish(w: nat)
    | Crash(w: nat)
    | Retry(key: string, at: nat)

  function Count(m: map<string, nat>, key: string): nat {
    if key in m then m[key] else 0
  }

  function Plus(m: map<string, nat>, key: string): map<string, nat> {
    m[key := Count(m, key) + 1]
  }

  function Initial(): State {
    State(0, map[], 0, [], map[], map[], map[])
  }

  function To(s: State, w: nat, p: Worker): State
    requires w < |s.workers|
  {
    s.(workers := s.workers[w := p])
  }

  /** The clock is read before the transaction, so `at` may lag behind `now`. */
  ghost predicate CanClaim(s: State, w: nat, key: string, at: nat) {
    w < |s.workers| && s.workers[w].Free? && at <= s.now && Next(SweptAll(s.rows, at), key, at)
  }

  ghost predicate FindsNothing(s: State, w: nat, at: nat) {
    w < |s.workers| && s.workers[w].Free? && at <= s.now
    && forall k | k in s.rows :: !Eligible(Swept(s.rows[k], at), at)
  }

  function DoClaim(s: State, w: nat, key: string, at: nat): State
    requires w < |s.workers| && key in s.rows
  {
    var swept := SweptAll(s.rows, at);
    var row := Leased(swept[key], s.leases, at);
    To(s, w, Holding(key, row)).(rows := swept[key := row], leases := s.leases + 1, claims := Plus(s.claims, key))
  }

  function DoFinish(s: State, w: nat, status: Status, error: Option<string>): State
    requires w < |s.workers| && !s.workers[w].Free?
  {
    To(s, w, Free).(rows := FinishIn(s.rows, s.workers[w].key, s.workers[w].leased, status, error, s.now))
  }

  ghost function Step(s: State, e: Event): State {
    match e
    case Tick(d) => s.(now := s.now + d)
    case Start => s.(workers := s.workers + [Free])
    case Queue(key, kind, payload) =>
      if key in s.rows then s else s.(rows := s.rows[key := NewRow(kind, payload, s.now)])
    case Claim(w, key, at) => if CanClaim(s, w, key, at) then DoClaim(s, w, key, at) else s
    case ClaimNothing(w, at) => if FindsNothing(s, w, at) then s.(rows := SweptAll(s.rows, at)) else s
    case Skip(w) => if w < |s.workers| && s.workers[w].Holding? then DoFinish(s, w, Skipped, None) else s
    case Send(w, worked) =>
      if w < |s.workers| && s.workers[w].Holding?
      then To(s, w, Delivered(s.workers[w].key, s.workers[w].leased, worked)).(sends := Plus(s.sends, s.workers[w].key))
      else s
    case Finish(w) =>
      if w < |s.workers| && s.workers[w].Delivered? then
        if s.workers[w].worked then DoFinish(s, w, Sent, None)
        else DoFinish(s, w, AfterFailure(s.workers[w].leased), Some("delivery_failed"))
      else s
    case Crash(w) => if w < |s.workers| then To(s, w, Free) else s
    case Retry(key, at) =>
      if key in s.rows && at <= s.now && Retriable(s.rows[key], at)
      then s.(rows := s.rows[key := Retried(s.rows[key], at)], retries := Plus(s.retries, key)) else s
  }

  ghost function Run(s: State, es: seq<Event>): State
    decreases |es|
  {
    if es == [] then s else Run(Step(s, es[0]), es[1..])
  }

  // ---------------------------------------------------------------- the invariant

  /** How many workers hold `key` and have not handed its mail over yet. */
  function Unsent(workers: seq<Worker>, key: string): nat {
    if workers == [] then 0
    else Unsent(workers[..|workers| - 1], key)
         + (if workers[|workers| - 1].Holding? && workers[|workers| - 1].key == key then 1 else 0)
  }

  function Holds(p: Worker, key: string): nat {
    if p.Holding? && p.key == key then 1 else 0
  }

  lemma {:induction false} UnsentUpdate(workers: seq<Worker>, w: nat, p: Worker, key: string)
    requires w < |workers|
    ensures Unsent(workers[w := p], key) == Unsent(workers, key) - Holds(workers[w], key) + Holds(p, key)
    decreases |workers|
  {
    var n := |workers| - 1;
    if w == n {
      assert workers[w := p][..n] == workers[..n];
    } else {
      assert workers[w := p][..n] == workers[..n][w := p];
      UnsentUpdate(workers[..n], w, p, key);
    }
  }

  ghost predicate Budget(s: State, key: string) {
    && Count(s.sends, key) + Unsent(s.workers, key) <= Count(s.claims, key)
    && Count(s.claims, key) <=
       MAX_DELIVERY_ATTEMPTS * Count(s.retries, key) + (if key in s.rows then s.rows[key].attempts else 0)
  }

  ghost predicate HolderInv(s: State, p: Worker) {
    !p.Free? ==>
      && p.key in s.rows && p.leased.lease.Some? && p.leased.lease.value < s.leases
      && 0 < p.leased.attempts <= MAX_DELIVERY_ATTEMPTS
      && (s.rows[p.key].lease == p.leased.lease ==> s.rows[p.key] == p.leased)
  }

  /** Lease tokens are never issued twice. */
  ghost predicate Distinct(workers: seq<Worker>) {
    forall c, d | 0 <= c < d < |workers| && !workers[c].Free? && !workers[d].Free? ::
      workers[c].leased.lease != workers[d].leased.lease
  }

  ghost predicate IssuedBelow(rows: Rows, leases: nat) {
    forall k | k in rows && rows[k].lease.Some? :: rows[k].lease.value < leases
  }

  ghost predicate Inv(s: State) {
    && AllRows(s.rows) && IssuedBelow(s.rows, s.leases) && Distinct(s.workers)
    && (forall w | 0 <= w < |s.workers| :: HolderInv(s, s.workers[w]))
    && (forall key :: Budget(s, key))
  }

  /** A holder keeps its row as long as the row keeps the holder's lease. */
  lemma HolderKeeps(s: State, t: State, p: Worker)
    requires HolderInv(s, p) && t.leases >= s.leases && s.rows.Keys <= t.rows.Keys
    requires !p.Free? ==> p.key in t.rows && (t.rows[p.key] == s.rows[p.key] || t.rows[p.key].lease != p.leased.lease)
    ensures HolderInv(t, p)
  {
  }

  /** Sweeping a row either leaves it alone or takes its lease away. */
  lemma SweptRow(r: Row, now: nat)
    ensures Swept(r, now) == r || Swept(r, now).lease.None?
    ensures Swept(r, now).attempts == r.attempts
  {
  }

  lemma ClaimBudget(s: State, w: nat, key: string, at: nat, other: string)
    requires AllRows(s.rows) && CanClaim(s, w, key, at) && Budget(s, other)
    ensures Budget(DoClaim(s, w, key, at), other)
  {
    UnsentUpdate(s.workers, w, DoClaim(s, w, key, at).workers[w], other);
  }

  lemma ClaimHolders(s: State, w: nat, key: string, at: nat, d: nat)
    requires Inv(s) && CanClaim(s, w, key, at) && d < |s.workers|
    ensures HolderInv(DoClaim(s, w, key, at), DoClaim(s, w, key, at).workers[d])
  {
    var t := DoClaim(s, w, key, at);
    if d != w {
      assert HolderInv(s, s.workers[d]);
      if !s.workers[d].Free? {
        SweptRow(s.rows[s.workers[d].key], at);
        HolderKeeps(s, t, s.workers[d]);
      }
    }
  }

  lemma ClaimTokens(s: State, w: nat, key: string, at: nat)
    requires Inv(s) && CanClaim(s, w, key, at)
    ensures var t := DoClaim(s, w, key, at); IssuedBelow(t.rows, t.leases) && Distinct(t.workers)
  {
    var t := DoClaim(s, w, key, at);
    forall k | k in t.rows && t.rows[k].lease.Some? ensures t.rows[k].lease.value < t.leases {
      SweptRow(s.rows[k], at);
    }
    forall d | 0 <= d < |s.workers| && !s.workers[d].Free? ensures s.workers[d].leased.lease != Some(s.leases) {
      assert HolderInv(s, s.workers[d]);
    }
  }

  lemma ClaimKeeps(s: State, w: nat, key: string, at: nat)
    requires Inv(s) && CanClaim(s, w, key, at)
    ensures Inv(DoClaim(s, w, key, at)) && Evolves(s.rows, DoClaim(s, w, key, at).rows)
  {
    var t := DoClaim(s, w, key, at);
    SweepKeeps(s.rows, at);
    LeaseKeeps(SweptAll(s.rows, at), key, s.leases, at);
    ClaimTokens(s, w, key, at);
    forall other ensures Budget(t, other) { ClaimBudget(s, w, key, at, other); }
    forall d | 0 <= d < |t.workers| ensures HolderInv(t, t.workers[d]) { ClaimHolders(s, w, key, at, d); }
  }

  lemma FinishKeeps(s: State, w: nat, status: Status, error: Option<string>)
    requires Inv(s) && w < |s.workers| && !s.workers[w].Free? && !status.Sending? && !status.Expired?
    ensures Inv(DoFinish(s, w, status, error)) && Evolves(s.rows, DoFinish(s, w, status, error).rows)
  {
    var t := DoFinish(s, w, status, error);
    assert HolderInv(s, s.workers[w]);
    forall other ensures Budget(t, other) {
      assert Budget(s, other);
      UnsentUpdate(s.workers, w, Free, other);
    }
    forall d | 0 <= d < |t.workers| ensures HolderInv(t, t.workers[d]) {
      assert HolderInv(s, s.workers[d]);
    }
  }

  lemma SendKeeps(s: State, w: nat, worked: bool)
    requires Inv(s) && w < |s.workers| && s.workers[w].Holding?
    ensures Inv(Step(s, Send(w, worked)))
  {
    var t := Step(s, Send(w, worked));
    assert HolderInv(s, s.workers[w]);
    forall other ensures Budget(t, other) {
      assert Budget(s, other);
      UnsentUpdate(s.workers, w, t.workers[w], other);
    }
    forall d | 0 <= d < |t.workers| ensures HolderInv(t, t.workers[d]) {
      assert HolderInv(s, s.workers[d]);
    }
  }

  lemma CrashKeeps(s: State, w: nat)
    requires Inv(s) && w < |s.workers|
    ensures Inv(To(s, w, Free))
  {
    var t := To(s, w, Free);
    forall other ensures Budget(t, other) {
      assert Budget(s, other);
      UnsentUpdate(s.workers, w, Free, other);
    }
    forall d | 0 <= d < |t.workers| ensures HolderInv(t, t.workers[d]) {
      assert HolderInv(s, s.workers[d]);
    }
  }

  lemma RetryKeeps(s: State, key: string, at: nat)
    requires Inv(s) && key in s.rows && Retriable(s.rows[key], at) && at <= s.now
    ensures Inv(Step(s, Retry(key, at))) && Evolves(s.rows, Step(s, Retry(key, at)).rows)
  {
    var t := Step(s, Retry(key, at));
    forall other ensures Budget(t, other) { assert Budget(s, other); }
    forall d | 0 <= d < |t.workers| ensures HolderInv(t, t.workers[d]) {
      assert HolderInv(s, s.workers[d]);
    }
  }

  lemma SweepStepKeeps(s: State, at: nat)
    requires Inv(s)
    ensures Inv(s.(rows := SweptAll(s.rows, at))) && Evolves(s.rows, SweptAll(s.rows, at))
  {
    var t := s.(rows := SweptAll(s.rows, at));
    SweepKeeps(s.rows, at);
    forall other ensures Budget(t, other) {
      assert Budget(s, other);
      if other in s.rows { SweptRow(s.rows[other], at); }
    }
    forall k | k in t.rows && t.rows[k].lease.Some? ensures t.rows[k].lease.value < t.leases {
      SweptRow(s.rows[k], at);
    }
    forall d | 0 <= d < |t.workers| ensures HolderInv(t, t.workers[d]) {
      assert HolderInv(s, s.workers[d]);
      if !s.workers[d].Free? { SweptRow(s.rows[s.workers[d].key], at); }
      HolderKeeps(s, t, s.workers[d]);
    }
  }

  lemma QueueKeeps(s: State, key: string, kind: string, payload: string)
    requires Inv(s) && key !in s.rows
    ensures Inv(s.(rows := s.rows[key := NewRow(kind, payload, s.now)]))
  {
    var t := s.(rows := s.rows[key := NewRow(kind, payload, s.now)]);
    forall other ensures Budget(t, other) { assert Budget(s, other); }
    forall d | 0 <= d < |t.workers| ensures HolderInv(t, t.workers[d]) {
      assert HolderInv(s, s.workers[d]);
      HolderKeeps(s, t, s.workers[d]);
    }
  }

  lemma StartKeeps(s: State)
    requires Inv(s)
    ensures Inv(s.(workers := s.workers + [Free]))
  {
    var t := s.(workers := s.workers + [Free]);
    assert t.workers[..|t.workers| - 1] == s.workers;
    forall other ensures Budget(t, other) { assert Budget(s, other); }
    forall d | 0 <= d < |t.workers| ensures HolderInv(t, t.workers[d]) {
      if d < |s.workers| { assert HolderInv(s, s.workers[d]); }
    }
  }

  lemma TickKeeps(s: State, d: nat)
    requires Inv(s)
    ensures Inv(s.(now := s.now + d))
  {
    var t := s.(now := s.now + d);
    forall other ensures Budget(t, other) { assert Budget(s, other); }
    forall c | 0 <= c < |t.workers| ensures HolderInv(t, t.workers[c]) { assert HolderInv(s, s.workers[c]); }
  }

  lemma StepKeeps(s: State, e: Event)
    requires Inv(s)
    ensures Inv(Step(s, e)) && Evolves(s.rows, Step(s, e).rows)
  {
    match e
    case Claim(w, key, at) => if CanClaim(s, w, key, at) { ClaimKeeps(s, w, key, at); }
    case Skip(w) => if w < |s.workers| && s.workers[w].Holding? { FinishKeeps(s, w, Skipped, None); }
    case Send(w, worked) => if w < |s.workers| && s.workers[w].Holding? { SendKeeps(s, w, worked); }
    case Finish(w) =>
      if w < |s.workers| && s.workers[w].Delivered? {
        if s.workers[w].worked { FinishKeeps(s, w, Sent, None); }
        else { FinishKeeps(s, w, AfterFailure(s.workers[w].leased), Some("delivery_failed")); }
      }
    case Crash(w) => if w < |s.workers| { CrashKeeps(s, w); }
    case Retry(key, at) =>
      if key in s.rows && at <= s.now && Retriable(s.rows[key], at) { RetryKeeps(s, key, at); }
    case ClaimNothing(_, at) => SweepStepKeeps(s, at);
    case Queue(key, kind, payload) => if key !in s.rows { QueueKeeps(s, key, kind, payload); }
    case Start => StartKeeps(s);
    case Tick(d) => TickKeeps(s, d);
  }

  lemma {:induction false} RunKeeps(s: State, es: seq<Event>)
    requires Inv(s)
    ensures Inv(Run(s, es)) && Evolves(s.rows, Run(s, es).rows)
    decreases |es|
  {
    if es != [] {
      StepKeeps(s, es[0]);
      RunKeeps(Step(s, es[0]), es[1..]);
    }
  }

  /** A new job waits at once for three days, and an operator's retry makes a failed one wait again with a full budget. */
  lemma QueuedAndRetried(s: State, key: string, kind: string, payload: string, at: nat)
    ensures key !in s.rows ==>
              Step(s, Queue(key, kind, payload)) ==
              s.(rows := s.rows[key := Row(kind, Some(payload), Pending, 0, s.now, None, None, s.now + 259_200, None)])
    ensures key in s.rows && at <= s.now && s.rows[key].status == Failed && s.rows[key].payload.Some? && at < s.rows[key].expiresAt ==>
              var r := s.rows[key]; var t := Step(s, Retry(key, at));
              t.rows == s.rows[key := Row(r.kind, r.payload, Pending, 0, at, None, None, r.expiresAt, None)]
              && Count(t.retries, key) == Count(s.retries, key) + 1
  {
  }

  // ---------------------------------------------------------------- main results

  /** Every reachable row is consistent; jobs are never lost, never change kind or expiry, and a job
      that was sent, skipped or expired stays exactly as it is. */
  lemma RowsStayConsistent(es: seq<Event>, later: seq<Event>)
    ensures var s := Run(Initial(), es);
            AllRows(s.rows) && Evolves(s.rows, Run(s, later).rows)
  {
    RunKeeps(Initial(), es);
    RunKeeps(Run(Initial(), es), later);
  }

  /** With any number of workers, crashes and lost leases, a job's mail is handed over at most five
      times, and five more for each operator retry. */
  lemma SendsAreBounded(es: seq<Event>, key: string)
    ensures var s := Run(Initial(), es);
            Count(s.sends, key) <= MAX_DELIVERY_ATTEMPTS * (1 + Count(s.retries, key))
  {
    RunKeeps(Initial(), es);
    assert Budget(Run(Initial(), es), key);
  }

  /** After any claim, whether or not it found a job, no row past its expiry still has a payload. */
  lemma ClaimErasesExpired(es: seq<Event>, w: nat, key: string, at: nat)
    ensures var s := Run(Initial(), es);
            && (CanClaim(s, w, key, at) ==>
                  forall k | k in Step(s, Claim(w, key, at)).rows :: var r := Step(s, Claim(w, key, at)).rows[k];
                    r.expiresAt <= at ==> r.payload.None?)
            && (FindsNothing(s, w, at) ==>
                  forall k | k in Step(s, ClaimNothing(w, at)).rows :: var r := Step(s, ClaimNothing(w, at)).rows[k];
                    r.expiresAt <= at ==> r.payload.None?)
  {
    RunKeeps(Initial(), es);
    SweepKeeps(Run(Initial(), es).rows, at);
  }

  lemma StaleStep(s: State, e: Event, key: string, token: nat)
    requires Inv(s) && key in s.rows && token < s.leases && s.rows[key].lease != Some(token)
    ensures var t := Step(s, e); key in t.rows && token < t.leases && t.rows[key].lease != Some(token)
  {
    if e.Claim? && CanClaim(s, e.w, e.key, e.at) { SweptRow(s.rows[key], e.at); }
    if e.ClaimNothing? { SweptRow(s.rows[key], e.at); }
  }

  /** A lease that a row has lost never comes back. */
  lemma {:induction false} StaleForever(s: State, es: seq<Event>, key: string, token: nat)
    requires Inv(s) && key in s.rows && token < s.leases && s.rows[key].lease != Some(token)
    ensures var t := Run(s, es); key in t.rows && t.rows[key].lease != Some(token)
    decreases |es|
  {
    if es != [] {
      StepKeeps(s, es[0]);
      StaleStep(s, es[0], key, token);
      StaleForever(Step(s, es[0]), es[1..], key, token);
    }
  }

  /** A worker whose lease was taken over, expired or already finished can never change the table with it
      again, whatever happens before it tries. */
  lemma StaleFinishDoesNothing(es: seq<Event>, w: nat, later: seq<Event>)
    requires var s := Run(Initial(), es); var t := Run(s, later);
             && w < |s.workers| && !s.workers[w].Free? && s.workers[w].key in s.rows
             && s.rows[s.workers[w].key].lease != s.workers[w].leased.lease
             && w < |t.workers| && !t.workers[w].Free?
             && t.workers[w].key == s.workers[w].key && t.workers[w].leased == s.workers[w].leased
    ensures var t := Run(Run(Initial(), es), later);
            Step(t, Finish(w)).rows == t.rows && Step(t, Skip(w)).rows == t.rows
  {
    RunKeeps(Initial(), es);
    var s := Run(Initial(), es);
    assert HolderInv(s, s.workers[w]);
    StaleForever(s, later, s.workers[w].key, s.workers[w].leased.lease.value);
  }

  /** At most one of two workers on the same job still has its lease. */
  lemma OneLeaseHolder(es: seq<Event>, w: nat, d: nat)
    requires var s := Run(Initial(), es);
             w < |s.workers| && d < |s.workers| && w != d && !s.workers[w].Free? && !s.workers[d].Free?
             && s.workers[d].key == s.workers[w].key && s.workers[d].key in s.rows
             && s.rows[s.workers[d].key].lease == s.workers[d].leased.lease
    ensures var s := Run(Initial(), es); s.rows[s.workers[w].key].lease != s.workers[w].leased.lease
  {
    RunKeeps(Initial(), es);
    var s := Run(Initial(), es);
    assert HolderInv(s, s.workers[w]) && HolderInv(s, s.workers[d]);
  }

  /** While a lease lasts nobody else can claim its job. */
  lemma LeaseExcludes(s: State, w: nat, key: string, at: nat, d: nat, at': nat)
    requires CanClaim(s, w, key, at) && at' <= at + LEASE
    ensures !CanClaim(Step(s, Claim(w, key, at)), d, key, at')
  {
    assert DoClaim(s, w, key, at).rows[key] == Leased(SweptAll(s.rows, at)[key], s.leases, at);
  }

  /** A delivery that works, finished under its own lease, closes the job and erases its payload. */
  lemma SuccessfulDeliveryCloses(es: seq<Event>, w: nat)
    requires var s := Run(Initial(), es);
             w < |s.workers| && s.workers[w].Delivered? && s.workers[w].worked
             && s.workers[w].key in s.rows && s.rows[s.workers[w].key].lease == s.workers[w].leased.lease
    ensures var s := Run(Initial(), es); var r := Step(s, Finish(w)).rows[s.workers[w].key];
            r.status == Sent && r.payload == None && r.lease == None
  {
    RunKeeps(Initial(), es);
    var s := Run(Initial(), es);
    assert HolderInv(s, s.workers[w]);
  }

  /** A delivery that failed, finished under its own lease, keeps the payload for another attempt, or for an operator
      after the fifth; a job whose mail is switched off is closed. */
  lemma OtherOutcomes(es: seq<Event>, w: nat)
    requires var s := Run(Initial(), es);
             w < |s.workers| && !s.workers[w].Free? && s.workers[w].key in s.rows
             && s.rows[s.workers[w].key].lease == s.workers[w].leased.lease
    ensures var s := Run(Initial(), es); var p := s.workers[w];
            && (p.Delivered? && !p.worked ==>
                  var r := Step(s, Finish(w)).rows[p.key];
                  r.status == (if p.leased.attempts < 5 then Pending else Failed) && r.payload == p.leased.payload && r.payload.Some?
                  && r.lease == None && r.availableAt == s.now + Delay(p.leased.attempts))
            && (p.Holding? ==>
                  var r := Step(s, Skip(w)).rows[p.key];
                  r.status == Skipped && r.payload == None && r.lease == None)
  {
    RunKeeps(Initial(), es);
    var s := Run(Initial(), es);
    assert HolderInv(s, s.workers[w]);
    DelayIsBackoff(s.workers[w].leased.attempts);
  }

  /** One round of a delivery run is these steps: claim, then skip, or send and finish. */
  lemma RoundIsSteps(s: State, w: nat, key: string, mailer: Mailer, n: nat)
    requires CanClaim(s, w, key, s.now) && n < |mailer.works|
    ensures var swept := SweptAll(s.rows, s.now);
            var leased := Leased(swept[key], s.leases, s.now);
            var (status, error) := Verdict(mailer, n, leased);
            var claimed := Step(s, Claim(w, key, s.now));
            var t := if mailer.email && (leased.kind == "account_deleted" || mailer.billing)
                     then Step(Step(claimed, Send(w, mailer.works[n])), Finish(w)) else Step(claimed, Skip(w));
            t.rows == FinishIn(swept[key := leased], key, leased, status, error, s.now) && t.workers == s.workers
  {
    hide SweptAll, FinishIn;
    var leased := Leased(SweptAll(s.rows, s.now)[key], s.leases, s.now);
    var claimed := Step(s, Claim(w, key, s.now));
    assert claimed.workers == s.workers[w := Holding(key, leased)];
    assert claimed.workers[w := Free] == s.workers;
    var sent := Step(claimed, Send(w, mailer.works[n]));
    assert sent.workers == s.workers[w := Delivered(key, leased, mailer.works[n])];
    assert sent.workers[w := Free] == s.workers;
  }
}
