/**
 A Redis counter that limits how often something may happen: it is created with a lifetime, counts
 up while it lives, and every rewrite gives it back the remaining life that was read a moment before.
 */
module CounterLedger {
  import opened Wrappers

  datatype Counter = Counter(count: nat, expires: nat)

  function CountOf(c: Option<Counter>): nat {
    if c.Some? then c.value.count else 0
  }

  /** TTL of a counter; zero stands for every answer that is not positive. */
  function Ttl(c: Option<Counter>, now: nat): nat {
    if c.Some? && c.value.expires > now then c.value.expires - now else 0
  }

  /** The counter as rewritten now: its remaining life as it was read, or a new window. */
  function Bump(count: nat, ttl: nat, window: nat, now: nat): Counter {
    Counter(count + 1, now + if ttl > 0 then ttl else window)
  }

  // ---------------------------------------------------------------- the books of one counter

  /** An event charged to a counter: when, in which lifetime of the key, and as its how-manieth. */
  datatype Charge = Charge(at: nat, life: nat, rank: nat)

  /** The next charge on a counter: it opens a new lifetime when the key is not there. */
  function NextCharge(charges: seq<Charge>, live: bool, count: nat, now: nat): Charge {
    var life := if charges == [] then 0 else charges[|charges| - 1].life;
    if live then Charge(now, life, count + 1) else Charge(now, life + 1, 1)
  }

  /** What an undisturbed client has read is still so; remaining lives are as old as the reading. */
  ghost predicate StillTtl(c: Option<Counter>, ttl: nat, at: nat, now: nat) {
    at <= now && (if c.Some? then c.value.expires == at + ttl && ttl > 0 else ttl == 0)
  }

  /** The index of the charge that opened the lifetime of charge `j`. */
  function Opening(charges: seq<Charge>, j: nat): int
    requires j < |charges|
  {
    j - charges[j].rank + 1
  }

  predicate Opened(charges: seq<Charge>, j: nat) {
    j < |charges| && 0 <= Opening(charges, j) <= j
    && charges[Opening(charges, j)].life == charges[j].life && charges[Opening(charges, j)].rank == 1
  }

  predicate Sound(charges: seq<Charge>, j: nat, limit: nat) {
    Opened(charges, j) && charges[j].rank <= limit
  }

  /** Charge `j` follows its predecessor: in the same lifetime, or opening one a full window after the
      opening of the lifetime before. */
  predicate Follows(charges: seq<Charge>, j: nat, window: nat) {
    0 < j < |charges| && Opened(charges, j - 1) && charges[j - 1].at <= charges[j].at &&
    if charges[j].rank == 1
    then charges[j].life == charges[j - 1].life + 1 && charges[j].at >= charges[Opening(charges, j - 1)].at + window
    else charges[j].life == charges[j - 1].life && charges[j].rank == charges[j - 1].rank + 1
  }

  /** Each lifetime of a counter holds at most `limit` charges and lasts at least `window`. */
  ghost predicate Ledger(charges: seq<Charge>, limit: nat, window: nat) {
    && (forall j | 0 <= j < |charges| :: Sound(charges, j, limit))
    && (forall j | 0 < j < |charges| :: Follows(charges, j, window))
  }

  /** The counter agrees with the charges of the lifetime it is in. */
  ghost predicate Tallied(c: Option<Counter>, charges: seq<Charge>, window: nat, now: nat) {
    if charges == [] then c.None?
    else
      var last := |charges| - 1;
      && charges[last].at <= now && Opened(charges, last)
      && var start := charges[Opening(charges, last)].at;
      if c.Some?
      then now < c.value.expires && c.value.count == charges[last].rank && c.value.expires >= start + window
      else now >= start + window
  }

  /** The new charge opens a lifetime of its own or continues the one the counter is in. */
  lemma LastFollows(c: Option<Counter>, charges: seq<Charge>, window: nat, ttl: nat, at: nat, now: nat)
    requires window > 0 && Tallied(c, charges, window, now) && StillTtl(c, ttl, at, now)
    ensures var charges' := charges + [NextCharge(charges, ttl > 0, CountOf(c), now)];
            && Opened(charges', |charges|)
            && (charges != [] ==> Follows(charges', |charges|, window))
            && charges'[|charges|].rank == CountOf(c) + 1
            && Tallied(Some(Bump(CountOf(c), ttl, window, now)), charges', window, now)
  {
    var charges' := charges + [NextCharge(charges, ttl > 0, CountOf(c), now)];
    if charges != [] {
      assert Opened(charges', |charges| - 1) && Opening(charges', |charges| - 1) == Opening(charges, |charges| - 1);
      if ttl > 0 { assert Opening(charges', |charges|) == Opening(charges, |charges| - 1); }
    }
  }

  lemma LedgerGrows(charges: seq<Charge>, next: Charge, limit: nat, window: nat)
    requires Ledger(charges, limit, window) && next.rank <= limit && Opened(charges + [next], |charges|)
    requires charges != [] ==> Follows(charges + [next], |charges|, window)
    ensures Ledger(charges + [next], limit, window)
  {
    var charges' := charges + [next];
    forall j | 0 <= j < |charges| ensures Sound(charges', j, limit) {
      assert Sound(charges, j, limit);
    }
    forall j | 0 < j < |charges| ensures Follows(charges', j, window) {
      assert Follows(charges, j, window);
    }
  }

  /** Charging the counter keeps the books, whether its key was there or not. */
  lemma ChargeKeeps(c: Option<Counter>, charges: seq<Charge>, limit: nat, window: nat, ttl: nat, at: nat, now: nat)
    requires window > 0 && Ledger(charges, limit, window) && Tallied(c, charges, window, now)
    requires CountOf(c) < limit && StillTtl(c, ttl, at, now)
    ensures var charges' := charges + [NextCharge(charges, ttl > 0, CountOf(c), now)];
            Ledger(charges', limit, window) && Tallied(Some(Bump(CountOf(c), ttl, window, now)), charges', window, now)
  {
    var next := NextCharge(charges, ttl > 0, CountOf(c), now);
    assert (charges + [next])[|charges|] == next;
    LastFollows(c, charges, window, ttl, at, now);
    LedgerGrows(charges, next, limit, window);
  }

  /** A lifetime ends no earlier than a window after it began. */
  lemma ExpiryKeeps(c: Option<Counter>, charges: seq<Charge>, window: nat, now: nat)
    requires Tallied(c, charges, window, now)
    ensures Tallied(if c.Some? && c.value.expires <= now + 1 then None else c, charges, window, now + 1)
  {
  }

  // ---------------------------------------------------------------- what the books imply

  lemma {:induction false} LivesGrow(charges: seq<Charge>, limit: nat, window: nat, i: nat, j: nat)
    requires Ledger(charges, limit, window) && i <= j < |charges|
    ensures charges[i].life <= charges[j].life && charges[i].at <= charges[j].at
    ensures charges[i].life == charges[j].life ==> charges[j].rank == charges[i].rank + (j - i)
    decreases j - i
  {
    if i < j {
      assert Follows(charges, j, window);
      LivesGrow(charges, limit, window, i, j - 1);
    }
  }

  /** A charge of an earlier life comes earlier. */
  lemma LifeBounds(charges: seq<Charge>, limit: nat, window: nat, i: nat, j: nat)
    requires Ledger(charges, limit, window) && i < |charges| && j < |charges| && charges[i].life < charges[j].life
    ensures i < j
  {
    if j < i { LivesGrow(charges, limit, window, j, i); }
  }

  /** Any `limit` + 1 charges in a row span two lifetimes. */
  lemma LimitPerLife(charges: seq<Charge>, limit: nat, window: nat, i: nat)
    requires Ledger(charges, limit, window) && i + limit < |charges|
    ensures charges[i].life < charges[i + limit].life
  {
    LivesGrow(charges, limit, window, i, i + limit);
    assert Sound(charges, i, limit) && Sound(charges, i + limit, limit);
  }

  /** Between the charges of two lives with a third in between lies a whole window. */
  lemma LifeBetween(charges: seq<Charge>, limit: nat, window: nat, i: nat, k: nat)
    requires Ledger(charges, limit, window) && i < |charges| && k < |charges|
    requires charges[i].life + 2 <= charges[k].life
    ensures charges[k].at >= charges[i].at + window
  {
    assert Sound(charges, k, limit);
    var b := Opening(charges, k);
    LifeBounds(charges, limit, window, i, b);
    assert Follows(charges, b, window) && Sound(charges, b - 1, limit);
    var a := Opening(charges, b - 1);
    LifeBounds(charges, limit, window, i, a);
    LivesGrow(charges, limit, window, i, a);
    LivesGrow(charges, limit, window, b, k);
  }

  /** Counted from the opening of a lifetime, `limit` + 1 charges in a row span a whole window. */
  lemma LimitFromOpening(charges: seq<Charge>, limit: nat, window: nat, i: nat)
    requires Ledger(charges, limit, window) && i + limit < |charges| && charges[i].rank == 1
    ensures charges[i + limit].at >= charges[i].at + window
  {
    var j := i + limit;
    LimitPerLife(charges, limit, window, i);
    if charges[j].life >= charges[i].life + 2 {
      LifeBetween(charges, limit, window, i, j);
    } else {
      assert Sound(charges, j, limit);
      var b := Opening(charges, j);
      LifeBounds(charges, limit, window, i, b);
      assert Follows(charges, b, window);
      LivesGrow(charges, limit, window, i, b - 1);
      LivesGrow(charges, limit, window, b, j);
    }
  }

  /** Any 2 x `limit` charges in a row span a whole window, so at most 2 x `limit` - 1 fit into one. */
  lemma TwiceLimitPerWindow(charges: seq<Charge>, limit: nat, window: nat, i: nat)
    requires 0 < limit && Ledger(charges, limit, window) && i + 2 * limit - 1 < |charges|
    ensures charges[i + 2 * limit - 1].at >= charges[i].at + window
  {
    var j := i + 2 * limit - 1;
    LimitPerLife(charges, limit, window, i);
    LivesGrow(charges, limit, window, i + limit, j);
    if charges[j].life >= charges[i].life + 2 {
      LifeBetween(charges, limit, window, i, j);
    } else {
      // The second lifetime is full, so it opens at i + limit and the first one opens at i.
      assert Sound(charges, j, limit) && Sound(charges, i + limit - 1, limit) && Sound(charges, i, limit);
      LivesGrow(charges, limit, window, i + limit, j);
      LivesGrow(charges, limit, window, i, i + limit - 1);
      assert Follows(charges, i + limit, window);
      LimitFromOpening(charges, limit, window, i);
    }
  }
}
