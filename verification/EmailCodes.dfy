/**
 Emailed codes for one user and purpose: four Redis keys with lifetimes on a clock of whole seconds,
 and any number of optimistic transactions whose commands interleave one by one.

 A transaction is aborted when a watched key was written, or expired, after it began to watch.  A nonce
 is fresh, here the next unused number; a digest matches only the code it was made from.
 */
module EmailCodes {
  import opened Wrappers
  import opened CounterLedger

  /** `blockLimit` is the `attempt_limit` of issuing, `attemptLimit` that of consuming. */
  datatype Config = Config(
    ttl: nat, cooldown: nat, requestLimit: nat, requestWindow: nat, blockLimit: nat, attemptLimit: nat, window: nat)

  /** Redis refuses a lifetime of zero. */
  predicate Usable(cfg: Config) {
    cfg.ttl > 0 && cfg.cooldown > 0 && cfg.requestWindow > 0 && cfg.window > 0
  }

  datatype Challenge = Challenge(nonce: nat, code: string, expires: nat)

  datatype Keys = Keys(challenge: Option<Challenge>, throttle: Option<nat>, budget: Option<Counter>, failures: Option<Counter>)

  /** The keys that have not expired at `now`. */
  function Live(k: Keys, now: nat): Keys {
    Keys(if k.challenge.Some? && k.challenge.value.expires <= now then None else k.challenge,
         if k.throttle.Some? && k.throttle.value <= now then None else k.throttle,
         if k.budget.Some? && k.budget.value.expires <= now then None else k.budget,
         if k.failures.Some? && k.failures.value.expires <= now then None else k.failures)
  }

  // ---------------------------------------------------------------- the effect of a committed transaction

  function Issued(cfg: Config, k: Keys, nonce: nat, code: string, requests: nat, budgetTtl: nat, now: nat): Keys {
    k.(challenge := Some(Challenge(nonce, code, now + cfg.ttl)),
       throttle := Some(now + cfg.cooldown),
       budget := Some(Bump(requests, budgetTtl, cfg.requestWindow, now)))
  }

  predicate Matches(raw: Option<Challenge>, guess: string) {
    raw.Some? && raw.value.code == guess
  }

  function Consumed(cfg: Config, k: Keys, raw: Option<Challenge>, guess: string, keep: bool, attempts: nat, ttl: nat, now: nat): Keys {
    if Matches(raw, guess) then
      if keep then k else k.(challenge := None)
    else
      k.(failures := Some(Bump(attempts, ttl, cfg.window, now)),
         challenge := if attempts + 1 >= cfg.attemptLimit then None else k.challenge)
  }

  /** The same operations with nobody in between. */
  predicate MayIssue(cfg: Config, k: Keys) {
    CountOf(k.failures) < cfg.blockLimit && k.throttle.None? && CountOf(k.budget) < cfg.requestLimit
  }

  function AtomicIssue(cfg: Config, k: Keys, nonce: nat, code: string, now: nat): Keys {
    if MayIssue(cfg, k) then Issued(cfg, k, nonce, code, CountOf(k.budget), Ttl(k.budget, now), now) else k
  }

  function AtomicConsume(cfg: Config, k: Keys, guess: string, keep: bool, now: nat): Keys {
    if CountOf(k.failures) >= cfg.attemptLimit then k
    else Consumed(cfg, k, k.challenge, guess, keep, CountOf(k.failures), Ttl(k.failures, now), now)
  }

  class CodeStore {
    var keys: Keys
    var nonces: nat
    const cfg: Config

    constructor (cfg: Config)
      ensures this.cfg == cfg && keys == Keys(None, None, None, None) && nonces == 0
    {
      this.cfg := cfg;
      keys, nonces := Keys(None, None, None, None), 0;
    }

    /** A code is sent, or the caller is told how many seconds to wait. */
    method Issue(code: string, now: nat) returns (sent: bool, wait: nat)
      requires keys == Live(keys, now)
      modifies this
      ensures keys == AtomicIssue(cfg, old(keys), old(nonces), code, now)
      ensures sent <==> MayIssue(cfg, old(keys))
      ensures nonces == old(nonces) + if sent then 1 else 0
      ensures sent ==> wait == cfg.cooldown
      ensures !sent ==> wait > 0
      ensures sent <==> CountOf(old(keys).failures) < cfg.blockLimit && old(keys).throttle.None?
                        && CountOf(old(keys).budget) < cfg.requestLimit
      ensures sent ==>
                && keys.challenge == Some(Challenge(old(nonces), code, now + cfg.ttl)) && keys.throttle == Some(now + cfg.cooldown)
                && keys.failures == old(keys).failures
                && keys.budget == Some(Counter(CountOf(old(keys).budget) + 1,
                                    if old(keys).budget.Some? then old(keys).budget.value.expires else now + cfg.requestWindow))
      ensures !sent ==> keys == old(keys)
    {
      if CountOf(keys.failures) >= cfg.blockLimit {
        return false, if Ttl(keys.failures, now) > 1 then Ttl(keys.failures, now) else 1;
      }
      if keys.throttle.Some? {
        return false, keys.throttle.value - now;
      }
      var requests := CountOf(keys.budget);
      var budgetTtl := Ttl(keys.budget, now);
      if requests >= cfg.requestLimit {
        return false, if budgetTtl > 1 then budgetTtl else 1;
      }
      keys := keys.(challenge := Some(Challenge(nonces, code, now + cfg.ttl)));
      keys := keys.(throttle := Some(now + cfg.cooldown));
      keys := keys.(budget := Some(Counter(requests + 1, now + if budgetTtl > 0 then budgetTtl else cfg.requestWindow)));
      nonces := nonces + 1;
      return true, cfg.cooldown;
    }

    method Consume(guess: string, keep: bool, now: nat) returns (valid: bool)
      requires keys == Live(keys, now)
      modifies this`keys
      ensures keys == AtomicConsume(cfg, old(keys), guess, keep, now)
      ensures valid <==> CountOf(old(keys).failures) < cfg.attemptLimit
                         && old(keys).challenge.Some? && old(keys).challenge.value.code == guess
      ensures valid ==> keys == old(keys).(challenge := if keep then old(keys).challenge else None)
      ensures !valid && CountOf(old(keys).failures) < cfg.attemptLimit ==>
                keys == old(keys).(
                  failures := Some(Counter(CountOf(old(keys).failures) + 1,
                                if old(keys).failures.Some? then old(keys).failures.value.expires else now + cfg.window)),
                  challenge := if CountOf(old(keys).failures) + 1 >= cfg.attemptLimit then None else old(keys).challenge)
      ensures CountOf(old(keys).failures) >= cfg.attemptLimit ==> keys == old(keys)
    {
      var attempts := CountOf(keys.failures);
      if attempts >= cfg.attemptLimit {
        return false;
      }
      valid := keys.challenge.Some? && keys.challenge.value.code == guess;
      var ttl := Ttl(keys.failures, now);
      if valid {
        if !keep {
          keys := keys.(challenge := None);
        }
      } else {
        keys := keys.(failures := Some(Counter(attempts + 1, now + if ttl > 0 then ttl else cfg.window)));
        if attempts + 1 >= cfg.attemptLimit {
          keys := keys.(challenge := None);
        }
      }
    }
  }

  // ---------------------------------------------------------------- interleaved transactions

  datatype IssueStage = Watching | FailuresOk | ThrottleOk | Counted(requests: nat) | Timed(requests: nat, ttl: nat, at: nat)

  datatype ConsumeStage =
    | Begun
    | Fetched(raw: Option<Challenge>)
    | Tried(raw: Option<Challenge>, attempts: nat)
    | Ready(raw: Option<Challenge>, attempts: nat, ttl: nat, at: nat)

  /** `dirty` is set when a watched key changed; issuing watches all four keys, consuming the challenge
      and the failures. */
  datatype Client =
    | Idle
    | Issuing(dirty: bool, issue: IssueStage)
    | Consuming(dirty: bool, guess: string, keep: bool, consume: ConsumeStage)

  datatype State = State(
    now: nat,
    keys: Keys,
    clients: seq<Client>,
    issues: seq<Charge>,
    wrongs: seq<Charge>,
    spent: seq<nat>)

  datatype Event =
    | Tick
    | Arrive
    | BeginIssue(c: nat)
    | BeginConsume(c: nat, guess: string, keep: bool)
    | Read(c: nat)
    | Exec(c: nat, code: string)
    | Abandon(c: nat)

  function Initial(): State {
    State(0, Keys(None, None, None, None), [], [], [], [])
  }

  function To(s: State, c: nat, p: Client): State
    requires c < |s.clients|
  {
    s.(clients := s.clients[c := p])
  }

  function Soiled(p: Client, forIssue: bool, forConsume: bool): Client {
    match p
    case Idle => p
    case Issuing(d, stage) => Issuing(d || forIssue, stage)
    case Consuming(d, guess, keep, stage) => Consuming(d || forConsume, guess, keep, stage)
  }

  function AllSoiled(ps: seq<Client>, forIssue: bool, forConsume: bool): seq<Client> {
    seq(|ps|, i requires 0 <= i < |ps| => Soiled(ps[i], forIssue, forConsume))
  }

  function DoRead(cfg: Config, s: State, c: nat): State
    requires c < |s.clients|
  {
    match s.clients[c]
    case Idle => s
    case Issuing(d, stage) =>
      (match stage
       case Watching => To(s, c, if CountOf(s.keys.failures) >= cfg.blockLimit then Idle else Issuing(d, FailuresOk))
       case FailuresOk => To(s, c, if s.keys.throttle.Some? then Idle else Issuing(d, ThrottleOk))
       case ThrottleOk => To(s, c, Issuing(d, Counted(CountOf(s.keys.budget))))
       case Counted(requests) =>
         To(s, c, if requests >= cfg.requestLimit then Idle
                  else Issuing(d, Timed(requests, Ttl(s.keys.budget, s.now), s.now)))
       case Timed(_, _, _) => s)
    case Consuming(d, guess, keep, stage) =>
      (match stage
       case Begun => To(s, c, Consuming(d, guess, keep, Fetched(s.keys.challenge)))
       case Fetched(raw) =>
         To(s, c, if CountOf(s.keys.failures) >= cfg.attemptLimit then Idle
                  else Consuming(d, guess, keep, Tried(raw, CountOf(s.keys.failures))))
       case Tried(raw, attempts) =>
         To(s, c, Consuming(d, guess, keep, Ready(raw, attempts, Ttl(s.keys.failures, s.now), s.now)))
       case Ready(_, _, _, _) => s)
  }

  predicate CommitsIssue(s: State, c: nat) {
    c < |s.clients| && s.clients[c].Issuing? && s.clients[c].issue.Timed? && !s.clients[c].dirty
  }

  predicate CommitsConsume(s: State, c: nat) {
    c < |s.clients| && s.clients[c].Consuming? && s.clients[c].consume.Ready? && !s.clients[c].dirty
  }

  function DoIssue(cfg: Config, s: State, c: nat, code: string): State
    requires CommitsIssue(s, c)
  {
    var Timed(requests, ttl, _) := s.clients[c].issue;
    var s' := s.(keys := Issued(cfg, s.keys, |s.issues|, code, requests, ttl, s.now),
                 issues := s.issues + [NextCharge(s.issues, ttl > 0, requests, s.now)],
                 clients := AllSoiled(s.clients, true, true));
    To(s', c, Idle)
  }

  function DoConsume(cfg: Config, s: State, c: nat): State
    requires CommitsConsume(s, c)
  {
    var Consuming(_, guess, keep, Ready(raw, attempts, ttl, _)) := s.clients[c];
    var valid := Matches(raw, guess);
    var s' := s.(keys := Consumed(cfg, s.keys, raw, guess, keep, attempts, ttl, s.now),
                 wrongs := if valid then s.wrongs else s.wrongs + [NextCharge(s.wrongs, ttl > 0, attempts, s.now)],
                 spent := if valid && !keep then s.spent + [raw.value.nonce] else s.spent,
                 clients := if valid && keep then s.clients else AllSoiled(s.clients, true, true));
    To(s', c, Idle)
  }

  function DoTick(s: State): State {
    var keys := Live(s.keys, s.now + 1);
    s.(now := s.now + 1, keys := keys,
       clients := AllSoiled(s.clients, keys != s.keys,
                            keys.challenge != s.keys.challenge || keys.failures != s.keys.failures))
  }

  function Step(cfg: Config, s: State, e: Event): State {
    match e
    case Tick => DoTick(s)
    case Arrive => s.(clients := s.clients + [Idle])
    case BeginIssue(c) => if c < |s.clients| && s.clients[c].Idle? then To(s, c, Issuing(false, Watching)) else s
    case BeginConsume(c, guess, keep) =>
      if c < |s.clients| && s.clients[c].Idle? then To(s, c, Consuming(false, guess, keep, Begun)) else s
    case Read(c) => if c < |s.clients| then DoRead(cfg, s, c) else s
    case Exec(c, code) =>
      if CommitsIssue(s, c) then DoIssue(cfg, s, c, code)
      else if CommitsConsume(s, c) then DoConsume(cfg, s, c)
      else if c < |s.clients| && ((s.clients[c].Issuing? && s.clients[c].issue.Timed?) ||
                                  (s.clients[c].Consuming? && s.clients[c].consume.Ready?))
      then To(s, c, Idle)
      else s
    case Abandon(c) => if c < |s.clients| then To(s, c, Idle) else s
  }

  function Run(cfg: Config, s: State, es: seq<Event>): State
    decreases |es|
  {
    if es == [] then s else Run(cfg, Step(cfg, s, es[0]), es[1..])
  }

  // ---------------------------------------------------------------- the invariant

  ghost predicate ClientInv(cfg: Config, s: State, p: Client) {
    match p
    case Idle => true
    case Issuing(d, stage) => !d ==> IssueInv(cfg, s, stage)
    case Consuming(d, _, _, stage) => !d ==> ConsumeInv(cfg, s, stage)
  }

  ghost predicate IssueInv(cfg: Config, s: State, stage: IssueStage) {
    && (!stage.Watching? ==> CountOf(s.keys.failures) < cfg.blockLimit)
    && (!stage.Watching? && !stage.FailuresOk? ==> s.keys.throttle.None?)
    && (stage.Counted? ==> stage.requests == CountOf(s.keys.budget))
    && (stage.Timed? ==> stage.requests == CountOf(s.keys.budget) < cfg.requestLimit
                         && StillTtl(s.keys.budget, stage.ttl, stage.at, s.now))
  }

  ghost predicate ConsumeInv(cfg: Config, s: State, stage: ConsumeStage) {
    match stage
    case Begun => true
    case Fetched(raw) => raw == s.keys.challenge
    case Tried(raw, attempts) => raw == s.keys.challenge && attempts == CountOf(s.keys.failures) < cfg.attemptLimit
    case Ready(raw, attempts, ttl, at) =>
      raw == s.keys.challenge && attempts == CountOf(s.keys.failures) < cfg.attemptLimit
      && StillTtl(s.keys.failures, ttl, at, s.now)
  }

  // ---------------------------------------------------------------- every step keeps the invariant

  ghost predicate Apart(charges: seq<Charge>, gap: nat) {
    forall j | 0 < j < |charges| :: charges[j].at >= charges[j - 1].at + gap
  }

  ghost predicate ThrottleInv(cfg: Config, throttle: Option<nat>, issues: seq<Charge>, now: nat) {
    && Apart(issues, cfg.cooldown)
    && (issues != [] ==>
          var free := issues[|issues| - 1].at + cfg.cooldown;
          if throttle.Some? then throttle.value == free else now >= free)
    && (issues == [] ==> throttle.None?)
  }

  /** The code in force is one that was issued and has not been spent; no code was spent twice. */
  ghost predicate SpentInv(challenge: Option<Challenge>, spent: seq<nat>, issued: nat) {
    && (challenge.Some? ==> challenge.value.nonce < issued && challenge.value.nonce !in spent)
    && (forall i | 0 <= i < |spent| :: spent[i] < issued)
    && (forall i, j | 0 <= i < j < |spent| :: spent[i] != spent[j])
  }

  ghost predicate BooksInv(cfg: Config, s: State) {
    && s.keys == Live(s.keys, s.now)
    && Ledger(s.issues, cfg.requestLimit, cfg.requestWindow) && Tallied(s.keys.budget, s.issues, cfg.requestWindow, s.now)
    && Ledger(s.wrongs, cfg.attemptLimit, cfg.window) && Tallied(s.keys.failures, s.wrongs, cfg.window, s.now)
    && ThrottleInv(cfg, s.keys.throttle, s.issues, s.now)
    && SpentInv(s.keys.challenge, s.spent, |s.issues|)
  }

  ghost predicate Inv(cfg: Config, s: State) {
    BooksInv(cfg, s) && forall c | 0 <= c < |s.clients| :: ClientInv(cfg, s, s.clients[c])
  }

  lemma IssueBooks(cfg: Config, s: State, c: nat, code: string)
    requires Usable(cfg) && Inv(cfg, s) && CommitsIssue(s, c)
    ensures BooksInv(cfg, DoIssue(cfg, s, c, code))
  {
    assert ClientInv(cfg, s, s.clients[c]);
    var Timed(requests, ttl, at) := s.clients[c].issue;
    ChargeKeeps(s.keys.budget, s.issues, cfg.requestLimit, cfg.requestWindow, ttl, at, s.now);
  }

  lemma ConsumeBooks(cfg: Config, s: State, c: nat)
    requires Usable(cfg) && Inv(cfg, s) && CommitsConsume(s, c)
    ensures BooksInv(cfg, DoConsume(cfg, s, c))
  {
    assert ClientInv(cfg, s, s.clients[c]);
    var Ready(raw, attempts, ttl, at) := s.clients[c].consume;
    if !Matches(raw, s.clients[c].guess) {
      ChargeKeeps(s.keys.failures, s.wrongs, cfg.attemptLimit, cfg.window, ttl, at, s.now);
    }
  }

  lemma ToKeeps(cfg: Config, s: State, c: nat, p: Client)
    requires Inv(cfg, s) && c < |s.clients| && ClientInv(cfg, s, p)
    ensures Inv(cfg, To(s, c, p))
  {
    var t := To(s, c, p);
    forall d | 0 <= d < |t.clients| ensures ClientInv(cfg, t, t.clients[d]) {
      assert ClientInv(cfg, s, if d == c then p else s.clients[d]);
    }
  }

  lemma IssueReadKeeps(cfg: Config, s: State, c: nat)
    requires Inv(cfg, s) && c < |s.clients| && s.clients[c].Issuing?
    ensures Inv(cfg, DoRead(cfg, s, c))
  {
    hide BooksInv;
    assert s.keys == Live(s.keys, s.now) by { LiveKeys(cfg, s); }
    assert ClientInv(cfg, s, s.clients[c]);
    if !s.clients[c].issue.Timed? { ToKeeps(cfg, s, c, DoRead(cfg, s, c).clients[c]); }
  }

  lemma ConsumeReadKeeps(cfg: Config, s: State, c: nat)
    requires Inv(cfg, s) && c < |s.clients| && s.clients[c].Consuming?
    ensures Inv(cfg, DoRead(cfg, s, c))
  {
    hide BooksInv;
    assert s.keys == Live(s.keys, s.now) by { LiveKeys(cfg, s); }
    assert ClientInv(cfg, s, s.clients[c]);
    if !s.clients[c].consume.Ready? { ToKeeps(cfg, s, c, DoRead(cfg, s, c).clients[c]); }
  }

  lemma LiveKeys(cfg: Config, s: State)
    requires BooksInv(cfg, s)
    ensures s.keys == Live(s.keys, s.now)
  {
  }

  /** A client whose transaction was spoiled has nothing left to keep. */
  lemma SpoiledIsFine(cfg: Config, t: State, p: Client)
    ensures ClientInv(cfg, t, Soiled(p, true, true))
  {
  }

  lemma AllSpoiledKeeps(cfg: Config, clients: seq<Client>, c: nat, t: State)
    requires BooksInv(cfg, t) && c < |clients| && t.clients == AllSoiled(clients, true, true)[c := Idle]
    ensures Inv(cfg, t)
  {
    hide BooksInv;
    forall d | 0 <= d < |t.clients| ensures ClientInv(cfg, t, t.clients[d]) {
      if d != c { SpoiledIsFine(cfg, t, clients[d]); }
    }
  }

  lemma IssueKeeps(cfg: Config, s: State, c: nat, code: string)
    requires Usable(cfg) && Inv(cfg, s) && CommitsIssue(s, c)
    ensures Inv(cfg, DoIssue(cfg, s, c, code))
  {
    IssueBooks(cfg, s, c, code);
    hide BooksInv, ClientInv, Issued;
    AllSpoiledKeeps(cfg, s.clients, c, DoIssue(cfg, s, c, code));
  }

  lemma ConsumeKeeps(cfg: Config, s: State, c: nat)
    requires Usable(cfg) && Inv(cfg, s) && CommitsConsume(s, c)
    ensures Inv(cfg, DoConsume(cfg, s, c))
  {
    ConsumeBooks(cfg, s, c);
    hide BooksInv, ClientInv;
    if Matches(s.clients[c].consume.raw, s.clients[c].guess) && s.clients[c].keep {
      assert DoConsume(cfg, s, c) == To(s, c, Idle);
      IdleKeeps(cfg, s, c);
    } else {
      hide Consumed, Matches;
      AllSpoiledKeeps(cfg, s.clients, c, DoConsume(cfg, s, c));
    }
  }

  lemma IdleKeeps(cfg: Config, s: State, c: nat)
    requires Inv(cfg, s) && c < |s.clients|
    ensures Inv(cfg, To(s, c, Idle))
  {
    ToKeeps(cfg, s, c, Idle);
  }

  lemma ExecKeeps(cfg: Config, s: State, c: nat, code: string)
    requires Usable(cfg) && Inv(cfg, s)
    ensures Inv(cfg, Step(cfg, s, Exec(c, code)))
  {
    hide Inv, DoIssue, DoConsume;
    if CommitsIssue(s, c) {
      IssueKeeps(cfg, s, c, code);
    } else if CommitsConsume(s, c) {
      ConsumeKeeps(cfg, s, c);
    } else if c < |s.clients| {
      IdleKeeps(cfg, s, c);
    }
  }

  lemma TickKeeps(cfg: Config, s: State)
    requires Inv(cfg, s)
    ensures Inv(cfg, DoTick(s))
  {
    ExpiryKeeps(s.keys.budget, s.issues, cfg.requestWindow, s.now);
    ExpiryKeeps(s.keys.failures, s.wrongs, cfg.window, s.now);
    var t := DoTick(s);
    forall d | 0 <= d < |t.clients| ensures ClientInv(cfg, t, t.clients[d]) {
      assert ClientInv(cfg, s, s.clients[d]);
    }
  }

  lemma StepKeeps(cfg: Config, s: State, e: Event)
    requires Usable(cfg) && Inv(cfg, s)
    ensures Inv(cfg, Step(cfg, s, e))
  {
    match e
    case Tick => TickKeeps(cfg, s);
    case Read(c) =>
      if c < |s.clients| && s.clients[c].Issuing? { IssueReadKeeps(cfg, s, c); }
      else if c < |s.clients| && s.clients[c].Consuming? { ConsumeReadKeeps(cfg, s, c); }
    case Exec(c, code) => ExecKeeps(cfg, s, c, code);
    case BeginIssue(c) => if Step(cfg, s, e) != s { ToKeeps(cfg, s, c, Issuing(false, Watching)); }
    case BeginConsume(c, guess, keep) => if Step(cfg, s, e) != s { ToKeeps(cfg, s, c, Consuming(false, guess, keep, Begun)); }
    case Abandon(c) => if c < |s.clients| { ToKeeps(cfg, s, c, Idle); }
    case Arrive =>
      var t := Step(cfg, s, e);
      forall d | 0 <= d < |t.clients| ensures ClientInv(cfg, t, t.clients[d]) {
        if d < |s.clients| { assert ClientInv(cfg, s, s.clients[d]); }
      }
  }

  lemma {:induction false} RunKeeps(cfg: Config, s: State, es: seq<Event>)
    requires Usable(cfg) && Inv(cfg, s)
    ensures Inv(cfg, Run(cfg, s, es))
    decreases |es|
  {
    if es != [] {
      StepKeeps(cfg, s, es[0]);
      RunKeeps(cfg, Step(cfg, s, es[0]), es[1..]);
    }
  }
}
