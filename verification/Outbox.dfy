/**
 The lifecycle-mail outbox: rows leased to workers under an attempt budget and an expiry, fenced by
 lease tokens, with operator retries.  Times are in seconds; a lease token is a fresh UUID, here the
 next unused number.  `claim` is one transaction and returns the row it leased.
 */
module Outbox {
  import opened Wrappers

  const MAX_DELIVERY_ATTEMPTS: nat := 5
  const MINUTE: nat := 60
  const LEASE: nat := 5 * MINUTE
  const RETENTION: nat := 72 * 60 * MINUTE

  datatype Status = Pending | Sending | Sent | Skipped | Failed | Expired

  datatype Row = Row(
    kind: string,
    payload: Option<string>,
    status: Status,
    attempts: nat,
    availableAt: nat,
    lease: Option<nat>,
    leasedUntil: Option<nat>,
    expiresAt: nat,
    error: Option<string>)

  type Rows = map<string, Row>

  // ---------------------------------------------------------------- what each statement does

  /** `notification_row`: a new job, to be kept for three days. */
  function NewRow(kind: string, payload: string, now: nat): Row {
    Row(kind, Some(payload), Pending, 0, now, None, None, now + RETENTION, None)
  }

  predicate Idle(r: Row, now: nat) {
    r.status.Pending? || (r.status.Sending? && r.leasedUntil.Some? && r.leasedUntil.value < now)
  }

  /** The two clean-up updates of `claim`: expired payloads go, abandoned last attempts fail. */
  function Swept(r: Row, now: nat): Row {
    if r.expiresAt <= now && r.payload.Some? then
      r.(payload := None, status := Expired, lease := None, leasedUntil := None)
    else if r.payload.Some? && r.attempts >= MAX_DELIVERY_ATTEMPTS && Idle(r, now) then
      r.(status := Failed, error := Some("delivery_unconfirmed"), lease := None, leasedUntil := None)
    else r
  }

  function SweptAll(rows: Rows, now: nat): Rows {
    map k | k in rows :: Swept(rows[k], now)
  }

  predicate Eligible(r: Row, now: nat) {
    r.payload.Some? && r.attempts < MAX_DELIVERY_ATTEMPTS && r.availableAt <= now && Idle(r, now)
  }

  function Leased(r: Row, lease: nat, now: nat): Row {
    r.(status := Sending, lease := Some(lease), leasedUntil := Some(now + LEASE), attempts := r.attempts + 1)
  }

  /** `key` is an eligible row, and none has waited longer. */
  ghost predicate Next(rows: Rows, key: string, now: nat) {
    && key in rows && Eligible(rows[key], now)
    && forall k | k in rows && Eligible(rows[k], now) :: rows[key].availableAt <= rows[k].availableAt
  }

  function Power2(n: nat): nat {
    if n == 0 then 1 else 2 * Power2(n - 1)
  }

  function Backoff(attempts: nat): nat {
    MINUTE * (if Power2(attempts) < 30 then Power2(attempts) else 30)
  }

  function Finished(r: Row, attempts: nat, status: Status, error: Option<string>, now: nat): Row {
    r.(status := status, lease := None, leasedUntil := None, error := error,
       availableAt := now + Backoff(attempts),
       payload := if status.Sent? || status.Skipped? then None else r.payload)
  }

  function FinishIn(rows: Rows, key: string, leased: Row, status: Status, error: Option<string>, now: nat): Rows {
    if key in rows && rows[key].lease == leased.lease && leased.lease.Some?
    then rows[key := Finished(rows[key], leased.attempts, status, error, now)] else rows
  }

  predicate Retriable(r: Row, now: nat) {
    r.status.Failed? && r.payload.Some? && r.expiresAt > now
  }

  function Retried(r: Row, now: nat): Row {
    r.(status := Pending, attempts := 0, availableAt := now, lease := None, leasedUntil := None, error := None)
  }

  /** The status a failed delivery is finished with. */
  function AfterFailure(leased: Row): Status {
    if leased.attempts < MAX_DELIVERY_ATTEMPTS then Pending else Failed
  }

  // ---------------------------------------------------------------- what the statements come to

  /** A job somebody should deliver now: it has a payload, is not past its expiry, has attempts left, is due, and is in
      nobody's hands, or in the hands of a worker whose lease has run out. */
  predicate Waiting(r: Row, now: nat) {
    && r.payload.Some? && now < r.expiresAt && r.attempts < 5 && r.availableAt <= now
    && (r.status == Pending || (r.status == Sending && r.leasedUntil.Some? && r.leasedUntil.value < now))
  }

  lemma WaitingIsEligible(r: Row, now: nat)
    ensures Waiting(r, now) <==> Eligible(Swept(r, now), now)
    ensures Waiting(r, now) ==> Swept(r, now) == r
  {
  }

  /** How `after` comes of `before` when the clean-up passes over it. */
  predicate CleanedUp(before: Row, after: Row, now: nat) {
    if before.payload.Some? && before.expiresAt <= now then
      after == before.(payload := None, status := Expired, lease := None, leasedUntil := None)
    else if before.payload.Some? && before.attempts >= 5
            && (before.status == Pending || (before.status == Sending && before.leasedUntil.Some? && before.leasedUntil.value < now)) then
      after == before.(status := Failed, error := Some("delivery_unconfirmed"), lease := None, leasedUntil := None)
    else after == before
  }

  lemma SweptIsCleanedUp(r: Row, now: nat)
    ensures CleanedUp(r, Swept(r, now), now)
  {
  }

  /** Seconds until a job is due again after its n-th attempt: 2, 4, 8, 16 and then 30 minutes. */
  function Delay(attempts: nat): nat {
    match attempts
    case 0 => 60
    case 1 => 120
    case 2 => 240
    case 3 => 480
    case 4 => 960
    case _ => 1800
  }

  lemma {:induction false} DelayIsBackoff(attempts: nat)
    ensures Backoff(attempts) == Delay(attempts)
  {
    assert Power2(1) == 2 && Power2(2) == 4 && Power2(3) == 8 && Power2(4) == 16;
    if attempts >= 5 { Power2Grows(5, attempts); }
  }

  lemma {:induction false} Power2Grows(a: nat, b: nat)
    requires a <= b
    ensures Power2(a) <= Power2(b) && Power2(a) > a
    decreases b
  {
    if a < b { Power2Grows(a, b - 1); }
    else if a > 0 { Power2Grows(a - 1, a - 1); }
  }

  /** How a leased job ends a round: closed without its payload when its mail is switched off or went out; kept when it
      did not, and due again later or, after the fifth attempt, failed. */
  predicate Ended(before: Row, after: Row, leased: Row, mailer: Mailer, works: bool, now: nat) {
    && after.kind == before.kind && after.expiresAt == before.expiresAt && after.attempts == before.attempts
    && after.lease == None && after.leasedUntil == None && after.availableAt == now + Delay(leased.attempts)
    && (if !mailer.email || (leased.kind != "account_deleted" && !mailer.billing) then
          after.status == Skipped && after.payload == None && after.error == None
        else if works then
          after.status == Sent && after.payload == None && after.error == None
        else
          after.status == (if leased.attempts < 5 then Pending else Failed)
          && after.payload == before.payload && after.error == Some("delivery_failed"))
  }

  // ---------------------------------------------------------------- one delivery run

  /** The settings a worker runs under, and whether the mail of its n-th round goes out. */
  datatype Mailer = Mailer(email: bool, billing: bool, works: seq<bool>)

  /** What the n-th round finishes the job it leased with. */
  function Verdict(mailer: Mailer, n: nat, leased: Row): (Status, Option<string>)
    requires n < |mailer.works|
  {
    if !(mailer.email && (leased.kind == "account_deleted" || mailer.billing)) then (Skipped, None)
    else if mailer.works[n] then (Sent, None)
    else (AfterFailure(leased), Some("delivery_failed"))
  }

  /** The table after these rounds; `times[n]` is when the n-th claims and when it finishes. */
  function AfterRounds(rows: Rows, times: seq<(nat, nat)>, mailer: Mailer, rounds: seq<(string, Row)>): Rows
    requires |rounds| <= |times| && |rounds| <= |mailer.works|
  {
    if rounds == [] then rows
    else
      var n := |rounds| - 1;
      var (key, leased) := rounds[n];
      var (status, error) := Verdict(mailer, n, leased);
      FinishIn(SweptAll(AfterRounds(rows, times, mailer, rounds[..n]), times[n].0)[key := leased],
               key, leased, status, error, times[n].1)
  }

  /** The n-th round leased the job that had waited longest, under a token of its own. */
  ghost predicate Claimed(rows: Rows, leases: nat, times: seq<(nat, nat)>, mailer: Mailer, rounds: seq<(string, Row)>, n: nat)
    requires n < |rounds| <= |times| && |rounds| <= |mailer.works|
  {
    var swept := SweptAll(AfterRounds(rows, times, mailer, rounds[..n]), times[n].0);
    Next(swept, rounds[n].0, times[n].0) && rounds[n].1 == Leased(swept[rounds[n].0], leases + n, times[n].0)
  }

  lemma NoRoundYet(rows: Rows, times: seq<(nat, nat)>, mailer: Mailer)
    ensures AfterRounds(rows, times, mailer, []) == rows && Evolves(rows, rows)
  {
  }

  lemma EvolvesOn(a: Rows, b: Rows, c: Rows)
    requires Evolves(a, b) && Evolves(b, c)
    ensures Evolves(a, c)
  {
  }

  lemma OneMoreRound(rows: Rows, leases: nat, times: seq<(nat, nat)>, mailer: Mailer, rounds: seq<(string, Row)>, key: string, leased: Row)
    requires |rounds| < |times| && |rounds| < |mailer.works|
    requires forall n | 0 <= n < |rounds| :: Claimed(rows, leases, times, mailer, rounds, n)
    requires var n := |rounds|; var swept := SweptAll(AfterRounds(rows, times, mailer, rounds), times[n].0);
             Next(swept, key, times[n].0) && leased == Leased(swept[key], leases + n, times[n].0)
    ensures var longer := rounds + [(key, leased)];
            && (forall n | 0 <= n < |longer| :: Claimed(rows, leases, times, mailer, longer, n))
            && AfterRounds(rows, times, mailer, longer) ==
               var (status, error) := Verdict(mailer, |rounds|, leased);
               FinishIn(SweptAll(AfterRounds(rows, times, mailer, rounds), times[|rounds|].0)[key := leased],
                        key, leased, status, error, times[|rounds|].1)
  {
    hide Next, SweptAll, FinishIn, Leased, Verdict;
    var longer := rounds + [(key, leased)];
    assert longer[..|rounds|] == rounds;
    forall n | 0 <= n < |longer| ensures Claimed(rows, leases, times, mailer, longer, n) {
      assert longer[..n] == rounds[..n];
      if n < |rounds| {
        assert Claimed(rows, leases, times, mailer, rounds, n);
      } else {
        assert rounds[..n] == rounds;
      }
    }
  }

  /** The n-th round left its job as its mail went. */
  ghost predicate EndsAsItWent(rows: Rows, times: seq<(nat, nat)>, mailer: Mailer, rounds: seq<(string, Row)>, n: nat)
    requires n < |rounds| <= |times| && |rounds| <= |mailer.works|
  {
    var (key, leased) := rounds[n];
    var after := AfterRounds(rows, times, mailer, rounds[..n + 1]);
    key in after && Ended(leased, after[key], leased, mailer, mailer.works[n], times[n].1)
  }

  lemma LastRoundEnds(rows: Rows, times: seq<(nat, nat)>, mailer: Mailer, rounds: seq<(string, Row)>)
    requires rounds != [] && |rounds| <= |times| && |rounds| <= |mailer.works| && rounds[|rounds| - 1].1.lease.Some?
    ensures EndsAsItWent(rows, times, mailer, rounds, |rounds| - 1)
  {
    hide SweptAll;
    DelayIsBackoff(rounds[|rounds| - 1].1.attempts);
    assert rounds[..|rounds|] == rounds;
  }

  lemma RoundEnds(rows: Rows, leases: nat, times: seq<(nat, nat)>, mailer: Mailer, earlier: seq<(string, Row)>, last: (string, Row))
    requires |earlier| < |times| && |earlier| < |mailer.works|
    requires Claimed(rows, leases, times, mailer, earlier + [last], |earlier|)
    requires forall n | 0 <= n < |earlier| :: EndsAsItWent(rows, times, mailer, earlier, n)
    ensures forall n | 0 <= n < |earlier| + 1 :: EndsAsItWent(rows, times, mailer, earlier + [last], n)
  {
    hide SweptAll, Next, AfterRounds, Ended;
    var rounds := earlier + [last];
    LastRoundEnds(rows, times, mailer, rounds);
    forall n | 0 <= n < |rounds| ensures EndsAsItWent(rows, times, mailer, rounds, n) {
      if n < |earlier| {
        assert EndsAsItWent(rows, times, mailer, earlier, n);
        assert earlier[..n + 1] == rounds[..n + 1];
      }
    }
  }

  // ---------------------------------------------------------------- the row invariant

  predicate RowInv(r: Row) {
    && (r.lease.Some? <==> r.status.Sending?) && (r.leasedUntil.Some? <==> r.status.Sending?)
    && (r.payload.None? <==> r.status.Sent? || r.status.Skipped? || r.status.Expired?)
    && r.attempts <= MAX_DELIVERY_ATTEMPTS && (r.status.Sending? ==> r.attempts > 0)
  }

  predicate AllRows(rows: Rows) {
    forall k | k in rows :: RowInv(rows[k])
  }

  predicate Closed(s: Status) {
    s.Sent? || s.Skipped? || s.Expired?
  }

  /** A step may add rows and change them, but never their kind or expiry, and never a closed row. */
  ghost predicate Evolves(before: Rows, after: Rows) {
    forall k | k in before ::
      && k in after && after[k].expiresAt == before[k].expiresAt && after[k].kind == before[k].kind
      && (Closed(before[k].status) ==> after[k] == before[k])
  }

  /** The clean-up keeps every promise and leaves no expired payload. */
  lemma SweepKeeps(rows: Rows, now: nat)
    requires AllRows(rows)
    ensures var swept := SweptAll(rows, now);
            && AllRows(swept) && Evolves(rows, swept)
            && forall k | k in swept && swept[k].expiresAt <= now :: swept[k].payload.None?
  {
  }

  lemma LeaseKeeps(rows: Rows, key: string, lease: nat, now: nat)
    requires AllRows(rows) && key in rows && Eligible(rows[key], now)
    ensures var leased := rows[key := Leased(rows[key], lease, now)]; AllRows(leased) && Evolves(rows, leased)
  {
  }

  // ---------------------------------------------------------------- the table

  class Notifications {
    var rows: Rows
    var leases: nat

    constructor ()
      ensures rows == map[] && leases == 0
    {
      rows, leases := map[], 0;
    }

    /** A key that is known keeps its row. */
    method Add(key: string, row: Row)
      requires AllRows(rows) && RowInv(row)
      modifies this`rows
      ensures AllRows(rows) && Evolves(old(rows), rows)
      ensures rows == if key in old(rows) then old(rows) else old(rows)[key := row]
    {
      if key !in rows {
        rows := rows[key := row];
      }
    }

    /** The two clean-up statements, one after the other. */
    method Sweep(now: nat)
      requires AllRows(rows)
      modifies this`rows
      ensures rows == SweptAll(old(rows), now) && AllRows(rows) && Evolves(old(rows), rows)
      ensures forall k | k in rows && rows[k].expiresAt <= now :: rows[k].payload.None?
      ensures rows.Keys == old(rows).Keys && forall k | k in rows :: CleanedUp(old(rows)[k], rows[k], now)
    {
      hide CleanedUp;
      SweepKeeps(rows, now);
      forall k | k in rows ensures CleanedUp(rows[k], Swept(rows[k], now), now) { SweptIsCleanedUp(rows[k], now); }
      rows := map k | k in rows ::
        if rows[k].expiresAt <= now && rows[k].payload.Some?
        then rows[k].(payload := None, status := Expired, lease := None, leasedUntil := None) else rows[k];
      rows := map k | k in rows ::
        if rows[k].payload.Some? && rows[k].attempts >= MAX_DELIVERY_ATTEMPTS && Idle(rows[k], now)
        then rows[k].(status := Failed, error := Some("delivery_unconfirmed"), lease := None, leasedUntil := None)
        else rows[k];
    }

    /** `queue_notification`: mail may be off, or the job may be known under an earlier key. */
    method Queue(key: string, previous: Option<string>, kind: string, payload: string, now: nat, email: bool)
      requires AllRows(rows)
      modifies this`rows
      ensures AllRows(rows) && Evolves(old(rows), rows)
      ensures var known := key in old(rows) || (previous.Some? && previous.value in old(rows));
              rows == if email && !known
                      then old(rows)[key := Row(kind, Some(payload), Pending, 0, now, None, None, now + 259_200, None)]
                      else old(rows)
    {
      if !email || (previous.Some? && previous.value in rows) {
        return;
      }
      Add(key, NewRow(kind, payload, now));
    }

    method Claim(now: nat) returns (claimed: Option<(string, Row)>)
      requires AllRows(rows)
      modifies this
      ensures AllRows(rows) && Evolves(old(rows), rows)
      ensures forall k | k in rows && rows[k].expiresAt <= now :: rows[k].payload.None?
      ensures claimed.None? ==> rows == SweptAll(old(rows), now) && leases == old(leases)
                                && forall k | k in rows :: !Eligible(rows[k], now)
      ensures claimed.Some? ==>
                var (key, row) := claimed.value; var swept := SweptAll(old(rows), now);
                && Next(swept, key, now) && row == Leased(swept[key], old(leases), now)
                && rows == swept[key := row] && leases == old(leases) + 1
      ensures claimed.None? ==> forall k | k in old(rows) :: !Waiting(old(rows)[k], now)
      ensures claimed.Some? ==>
                var (key, row) := claimed.value;
                && key in old(rows) && Waiting(old(rows)[key], now)
                && (forall k | k in old(rows) && Waiting(old(rows)[k], now) :: old(rows)[key].availableAt <= old(rows)[k].availableAt)
                && row == old(rows)[key].(status := Sending, lease := Some(old(leases)), leasedUntil := Some(now + 300),
                                          attempts := old(rows)[key].attempts + 1)
    {
      forall k | k in rows ensures Waiting(rows[k], now) <==> Eligible(Swept(rows[k], now), now) { WaitingIsEligible(rows[k], now); }
      forall k | k in rows ensures Waiting(rows[k], now) ==> Swept(rows[k], now) == rows[k] { WaitingIsEligible(rows[k], now); }
      Sweep(now);
      if forall k | k in rows :: !Eligible(rows[k], now) {
        return None;
      }
      var key := Earliest(now);
      LeaseKeeps(rows, key, leases, now);
      rows := rows[key := Leased(rows[key], leases, now)];
      leases := leases + 1;
      return Some((key, rows[key]));
    }

    /** ORDER BY available_at LIMIT 1. */
    method Earliest(now: nat) returns (key: string)
      requires exists k :: k in rows && Eligible(rows[k], now)
      ensures Next(rows, key, now)
    {
      key :| key in rows && Eligible(rows[key], now);
      var todo := rows.Keys - {key};
      while todo != {}
        invariant key in rows && Eligible(rows[key], now) && todo <= rows.Keys
        invariant forall k | k in rows && Eligible(rows[k], now) && k !in todo ::
                    rows[key].availableAt <= rows[k].availableAt
        decreases todo
      {
        var k :| k in todo;
        if Eligible(rows[k], now) && rows[k].availableAt < rows[key].availableAt {
          key := k;
        }
        todo := todo - {k};
      }
    }

    method Retry(key: string, now: nat) returns (queued: bool)
      requires AllRows(rows)
      modifies this`rows
      ensures AllRows(rows) && Evolves(old(rows), rows)
      ensures queued <==> key in old(rows) && Retriable(old(rows)[key], now)
      ensures rows == if queued then old(rows)[key := Retried(old(rows)[key], now)] else old(rows)
      ensures queued <==> key in old(rows) && old(rows)[key].status == Failed && old(rows)[key].payload.Some? && now < old(rows)[key].expiresAt
      ensures queued ==> rows[key] == Row(old(rows)[key].kind, old(rows)[key].payload, Pending, 0, now, None, None,
                                          old(rows)[key].expiresAt, None)
    {
      queued := key in rows && Retriable(rows[key], now);
      if queued {
        rows := rows[key := Retried(rows[key], now)];
      }
    }

    /** `leased` is the row as `Claim` returned it; only the lease it carries may finish the job. */
    method Finish(key: string, leased: Row, status: Status, error: Option<string>, now: nat)
      requires AllRows(rows) && !status.Sending? && !status.Expired?
      modifies this`rows
      ensures AllRows(rows) && Evolves(old(rows), rows)
      ensures rows == FinishIn(old(rows), key, leased, status, error, now)
      ensures if key in old(rows) && leased.lease.Some? && old(rows)[key].lease == leased.lease
              then rows == old(rows)[key := old(rows)[key].(
                     status := status, lease := None, leasedUntil := None, error := error,
                     availableAt := now + Delay(leased.attempts),
                     payload := if status == Sent || status == Skipped then None else old(rows)[key].payload)]
              else rows == old(rows)
    {
      DelayIsBackoff(leased.attempts);
      if key in rows && leased.lease.Some? && rows[key].lease == leased.lease {
        rows := rows[key := Finished(rows[key], leased.attempts, status, error, now)];
      }
    }

    /** Skips, mails or reports the job of the n-th round. */
    method Settle(key: string, row: Row, mailer: Mailer, n: nat, now: nat)
      requires AllRows(rows) && n < |mailer.works|
      modifies this`rows
      ensures AllRows(rows) && Evolves(old(rows), rows)
      ensures var (status, error) := Verdict(mailer, n, row); rows == FinishIn(old(rows), key, row, status, error, now)
      ensures if key in old(rows) && row.lease.Some? && old(rows)[key].lease == row.lease
              then key in rows && rows == old(rows)[key := rows[key]] && Ended(old(rows)[key], rows[key], row, mailer, mailer.works[n], now)
              else rows == old(rows)
    {
      if !mailer.email || (row.kind != "account_deleted" && !mailer.billing) {
        Finish(key, row, Skipped, None, now);
      } else if mailer.works[n] {
        Finish(key, row, Sent, None, now);
      } else {
        Finish(key, row, AfterFailure(row), Some("delivery_failed"), now);
      }
    }

    /** `deliver_notifications`: up to ten claims, all on record in `rounds`. */
    method Deliver(times: seq<(nat, nat)>, mailer: Mailer) returns (rounds: seq<(string, Row)>)
      requires AllRows(rows) && |times| == |mailer.works| == 10
      modifies this
      ensures AllRows(rows) && Evolves(old(rows), rows)
      ensures |rounds| <= 10 && leases == old(leases) + |rounds|
      ensures forall n | 0 <= n < |rounds| :: Claimed(old(rows), old(leases), times, mailer, rounds, n)
      ensures forall n | 0 <= n < |rounds| :: EndsAsItWent(old(rows), times, mailer, rounds, n)
      ensures var after := AfterRounds(old(rows), times, mailer, rounds);
              if |rounds| == 10 then rows == after
              else rows == SweptAll(after, times[|rounds|].0) && forall k | k in rows :: !Eligible(rows[k], times[|rounds|].0)
    {
      hide AllRows, Evolves, SweptAll, Next, Leased, Claimed, EndsAsItWent, AfterRounds, FinishIn, Verdict, Eligible, Waiting, Ended;
      rounds := [];
      NoRoundYet(rows, times, mailer);
      while |rounds| < 10
        invariant AllRows(rows) && Evolves(old(rows), rows)
        invariant |rounds| <= 10 && leases == old(leases) + |rounds|
        invariant rows == AfterRounds(old(rows), times, mailer, rounds)
        invariant forall n | 0 <= n < |rounds| :: Claimed(old(rows), old(leases), times, mailer, rounds, n)
        invariant forall n | 0 <= n < |rounds| :: EndsAsItWent(old(rows), times, mailer, rounds, n)
        decreases 10 - |rounds|
      {
        ghost var before := rows;
        var claimed := Claim(times[|rounds|].0);
        EvolvesOn(old(rows), before, rows);
        if claimed.None? {
          return;
        }
        var (key, row) := claimed.value;
        OneMoreRound(old(rows), old(leases), times, mailer, rounds, key, row);
        ghost var leased := rows;
        Settle(key, row, mailer, |rounds|, times[|rounds|].1);
        EvolvesOn(old(rows), leased, rows);
        RoundEnds(old(rows), old(leases), times, mailer, rounds, (key, row));
        rounds := rounds + [(key, row)];
      }
    }
  }
}
