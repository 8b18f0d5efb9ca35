/** Runs of the email codes that show how sharp their bounds are, and how far a commit can drift. */
module EmailCodeRuns {
  import opened Wrappers
  import opened CounterLedger
  import opened EmailCodes
  import opened EmailCodeGuarantees

  lemma {:induction false} RunAppend(cfg: Config, s: State, a: seq<Event>, b: seq<Event>)
    ensures Run(cfg, s, a + b) == Run(cfg, Run(cfg, s, a), b)
    decreases |a|
  {
    if a == [] {
      assert a + b == b;
    } else {
      assert (a + b)[0] == a[0] && (a + b)[1..] == a[1..] + b;
      RunAppend(cfg, Step(cfg, s, a[0]), a[1..], b);
    }
  }

  function Ticks(d: nat): seq<Event> {
    if d == 0 then [] else [Tick] + Ticks(d - 1)
  }

  // ---------------------------------------------------------------- one client that only guesses wrong

  /** No code was ever issued, and client 0 is between two guesses. */
  function Between(now: nat, failures: Option<Counter>, wrongs: seq<Charge>): State {
    State(now, Keys(None, None, None, failures), [Idle], [], wrongs, [])
  }

  const BEGIN: Event := BeginConsume(0, "", false)

  /** The same client with its guess about to be committed. */
  function Committing(now: nat, failures: Option<Counter>, wrongs: seq<Charge>, at: nat): State {
    Between(now, failures, wrongs).(clients :=
      [Consuming(false, "", false, Ready(None, CountOf(failures), Ttl(failures, at), at))])
  }

  predicate MayGuess(failures: Option<Counter>, limit: nat, now: nat) {
    CountOf(failures) < limit && (failures.Some? ==> now < failures.value.expires)
  }

  lemma GuessRead(cfg: Config, now: nat, failures: Option<Counter>, wrongs: seq<Charge>)
    requires MayGuess(failures, cfg.attemptLimit, now)
    ensures Run(cfg, Between(now, failures, wrongs), [BEGIN, Read(0), Read(0), Read(0)]) ==
            Committing(now, failures, wrongs, now)
  {
    var s := Between(now, failures, wrongs);
    var s1 := Step(cfg, s, BEGIN);
    assert s1 == s.(clients := [Consuming(false, "", false, Begun)]);
    var s2 := Step(cfg, s1, Read(0));
    assert s2 == s.(clients := [Consuming(false, "", false, Fetched(None))]);
    var s3 := Step(cfg, s2, Read(0));
    assert s3 == s.(clients := [Consuming(false, "", false, Tried(None, CountOf(failures)))]);
    var s4 := Step(cfg, s3, Read(0));
    assert s4 == Committing(now, failures, wrongs, now);
    assert [BEGIN, Read(0), Read(0), Read(0)][1..] == [Read(0), Read(0), Read(0)];
    assert [Read(0), Read(0), Read(0)][1..] == [Read(0), Read(0)] && [Read(0), Read(0)][1..] == [Read(0)];
    FourSteps(cfg, s, BEGIN, Read(0), Read(0), Read(0));
  }

  lemma FourSteps(cfg: Config, s: State, a: Event, b: Event, c: Event, d: Event)
    ensures Run(cfg, s, [a, b, c, d]) == Step(cfg, Step(cfg, Step(cfg, Step(cfg, s, a), b), c), d)
  {
    hide Step;
    assert [a, b, c, d][1..] == [b, c, d] && [b, c, d][1..] == [c, d] && [c, d][1..] == [d] && [d][1..] == [];
    var s3 := Step(cfg, Step(cfg, Step(cfg, s, a), b), c);
    assert Run(cfg, s3, [d]) == Run(cfg, Step(cfg, s3, d), []);
    assert Run(cfg, Step(cfg, Step(cfg, s, a), b), [c, d]) == Run(cfg, s3, [d]);
  }

  function Guess(): seq<Event> {
    [BEGIN, Read(0), Read(0), Read(0)] + [Exec(0, "")]
  }

  lemma OneGuess(cfg: Config, now: nat, failures: Option<Counter>, wrongs: seq<Charge>)
    requires MayGuess(failures, cfg.attemptLimit, now)
    ensures Run(cfg, Between(now, failures, wrongs), Guess()) ==
            Between(now, Some(Bump(CountOf(failures), Ttl(failures, now), cfg.window, now)),
                    wrongs + [NextCharge(wrongs, Ttl(failures, now) > 0, CountOf(failures), now)])
  {
    var s := Between(now, failures, wrongs);
    GuessRead(cfg, now, failures, wrongs);
    RunAppend(cfg, s, [BEGIN, Read(0), Read(0), Read(0)], [Exec(0, "")]);
    var s4 := Committing(now, failures, wrongs, now);
    assert CommitsConsume(s4, 0);
    assert Run(cfg, s4, [Exec(0, "")]) == Run(cfg, Step(cfg, s4, Exec(0, "")), []);
    assert Step(cfg, s4, Exec(0, "")).clients == [Idle];
  }

  function Guesses(k: nat): seq<Event> {
    if k == 0 then [] else Guess() + Guesses(k - 1)
  }

  /** `k` guesses in the same second, as long as the limit allows them. */
  lemma {:induction false} ManyGuesses(cfg: Config, now: nat, failures: Option<Counter>, wrongs: seq<Charge>, k: nat)
    requires 0 < cfg.window && CountOf(failures) + k <= cfg.attemptLimit
    requires failures.Some? ==> now < failures.value.expires
    ensures var t := Run(cfg, Between(now, failures, wrongs), Guesses(k));
            && t == Between(now, t.keys.failures, t.wrongs)
            && wrongs <= t.wrongs && |t.wrongs| == |wrongs| + k
            && (forall i | |wrongs| <= i < |t.wrongs| :: t.wrongs[i].at == now)
            && (k == 0 ==> t.keys.failures == failures)
            && (k > 0 ==> t.keys.failures == Some(Counter(CountOf(failures) + k,
                            if failures.Some? then failures.value.expires else now + cfg.window)))
    decreases k
  {
    hide Step, Guess, Committing;
    if k > 0 {
      OneGuess(cfg, now, failures, wrongs);
      var failures' := Some(Bump(CountOf(failures), Ttl(failures, now), cfg.window, now));
      var wrongs' := wrongs + [NextCharge(wrongs, Ttl(failures, now) > 0, CountOf(failures), now)];
      ManyGuesses(cfg, now, failures', wrongs', k - 1);
      RunAppend(cfg, Between(now, failures, wrongs), Guess(), Guesses(k - 1));
    }
  }

  lemma {:induction false} Waiting(cfg: Config, now: nat, failures: Counter, wrongs: seq<Charge>, d: nat)
    requires now + d < failures.expires
    ensures Run(cfg, Between(now, Some(failures), wrongs), Ticks(d)) == Between(now + d, Some(failures), wrongs)
    decreases d
  {
    if d > 0 {
      assert Step(cfg, Between(now, Some(failures), wrongs), Tick) == Between(now + 1, Some(failures), wrongs);
      assert Ticks(d)[0] == Tick && Ticks(d)[1..] == Ticks(d - 1);
      Waiting(cfg, now + 1, failures, wrongs, d - 1);
    }
  }

  /** One guess, a wait to the last second of the counter's life, the rest of the limit, and the whole limit
      again a second later. */
  function Straddling(cfg: Config): seq<Event>
    requires 0 < cfg.attemptLimit && 0 < cfg.window
  {
    [Arrive] + (Guesses(1) + (Ticks(cfg.window - 1) + (Guesses(cfg.attemptLimit - 1) + ([Tick] + Guesses(cfg.attemptLimit)))))
  }

  /** The bound is attained: for any limit and any window of two seconds or more, some run has 2 x `limit` - 1
      wrong guesses inside one window. */
  lemma TwiceLimitLessOneFits(cfg: Config)
    requires 0 < cfg.attemptLimit && 1 < cfg.window
    ensures var wrongs := Run(cfg, Initial(), Straddling(cfg)).wrongs;
            |wrongs| == 2 * cfg.attemptLimit && wrongs[2 * cfg.attemptLimit - 1].at < wrongs[1].at + cfg.window
  {
    hide Step, Guesses, Ticks, Between;
    var n, w := cfg.attemptLimit, cfg.window;
    var rest4 := [Tick] + Guesses(n);
    var rest3 := Guesses(n - 1) + rest4;
    var rest2 := Ticks(w - 1) + rest3;
    var rest1 := Guesses(1) + rest2;
    var s0 := Between(0, None, []);
    assert Run(cfg, Initial(), [Arrive]) == s0 by { Arrived(cfg); }
    RunAppend(cfg, Initial(), [Arrive], rest1);

    ManyGuesses(cfg, 0, None, [], 1);
    RunAppend(cfg, s0, Guesses(1), rest2);
    var s1 := Run(cfg, s0, Guesses(1));
    var life := Counter(1, w);

    Waiting(cfg, 0, life, s1.wrongs, w - 1);
    RunAppend(cfg, s1, Ticks(w - 1), rest3);
    var s2 := Between(w - 1, Some(life), s1.wrongs);

    ManyGuesses(cfg, w - 1, Some(life), s1.wrongs, n - 1);
    RunAppend(cfg, s2, Guesses(n - 1), rest4);
    var s3 := Run(cfg, s2, Guesses(n - 1));

    LifeEnds(cfg, w - 1, s3.keys.failures, s3.wrongs);
    RunAppend(cfg, s3, [Tick], Guesses(n));
    ManyGuesses(cfg, w, None, s3.wrongs, n);
  }

  lemma Arrived(cfg: Config)
    ensures Run(cfg, Initial(), [Arrive]) == Between(0, None, [])
  {
    assert Run(cfg, Initial(), [Arrive]) == Run(cfg, Step(cfg, Initial(), Arrive), []);
    assert Step(cfg, Initial(), Arrive).clients == [Idle];
  }

  lemma LifeEnds(cfg: Config, now: nat, failures: Option<Counter>, wrongs: seq<Charge>)
    requires failures.Some? && failures.value.expires == now + 1
    ensures Run(cfg, Between(now, failures, wrongs), [Tick]) == Between(now + 1, None, wrongs)
  {
    var s := Between(now, failures, wrongs);
    assert Run(cfg, s, [Tick]) == Run(cfg, Step(cfg, s, Tick), []);
    assert Step(cfg, s, Tick).clients == [Idle];
  }

  // ---------------------------------------------------------------- commits that drift

  /** A guess that counts against a live failure key, committed a second after its lifetime was read. */
  function LateGuess(): seq<Event> {
    [Arrive] + (Guesses(1) + ([BEGIN, Read(0), Read(0), Read(0)] + [Tick]))
  }

  lemma LateGuessReached(cfg: Config) returns (wrongs: seq<Charge>)
    requires Usable(cfg) && 1 < cfg.attemptLimit && 1 < cfg.window
    ensures Run(cfg, Initial(), LateGuess()) == Committing(1, Some(Counter(1, cfg.window)), wrongs, 0)
  {
    hide Step, Guesses, Between, Committing;
    var read := [BEGIN, Read(0), Read(0), Read(0)];
    var s0, life := Between(0, None, []), Counter(1, cfg.window);
    Arrived(cfg);
    RunAppend(cfg, Initial(), [Arrive], Guesses(1) + (read + [Tick]));
    ManyGuesses(cfg, 0, None, [], 1);
    RunAppend(cfg, s0, Guesses(1), read + [Tick]);
    wrongs := Run(cfg, s0, Guesses(1)).wrongs;
    GuessRead(cfg, 0, Some(life), wrongs);
    RunAppend(cfg, Between(0, Some(life), wrongs), read, [Tick]);
    TickKeepsReading(cfg, Some(life), wrongs);
  }

  /** It leaves other keys than the undisturbed guess would. */
  lemma GuessDrifts(cfg: Config)
    requires Usable(cfg) && 1 < cfg.attemptLimit && 1 < cfg.window
    ensures var s := Run(cfg, Initial(), LateGuess());
            CommitsConsume(s, 0) &&
            Step(cfg, s, Exec(0, "")).keys != AtomicConsume(cfg, s.keys, s.clients[0].guess, s.clients[0].keep, s.now)
  {
    hide Run, LateGuess, Step, AtomicConsume;
    var wrongs := LateGuessReached(cfg);
    CommittedGuessIsSerial(cfg, LateGuess(), 0, "");
  }

  lemma TickKeepsReading(cfg: Config, failures: Option<Counter>, wrongs: seq<Charge>)
    requires failures.Some? && 1 < failures.value.expires
    ensures Run(cfg, Committing(0, failures, wrongs, 0), [Tick]) == Committing(1, failures, wrongs, 0)
  {
    var s := Committing(0, failures, wrongs, 0);
    assert Run(cfg, s, [Tick]) == Run(cfg, Step(cfg, s, Tick), []);
    assert Step(cfg, s, Tick).clients == s.clients;
  }

  // ---------------------------------------------------------------- the same for issuing

  const ISSUE_READ: seq<Event> := [BeginIssue(0), Read(0), Read(0), Read(0)] + [Read(0)]

  /** One code was issued at second 0 and client 0 has been idle since. */
  function Aged(cfg: Config, now: nat): State {
    State(now,
          Live(Keys(Some(Challenge(0, "", cfg.ttl)), Some(cfg.cooldown), Some(Counter(1, cfg.requestWindow)), None), now),
          [Idle], [Charge(0, 1, 1)], [], [])
  }

  lemma IssueRead(cfg: Config, s: State)
    requires s.clients == [Idle] && MayIssue(cfg, s.keys)
    ensures Run(cfg, s, ISSUE_READ) ==
            s.(clients := [Issuing(false, Timed(CountOf(s.keys.budget), Ttl(s.keys.budget, s.now), s.now))])
  {
    var s1 := Step(cfg, s, BeginIssue(0));
    assert s1 == s.(clients := [Issuing(false, Watching)]);
    var s2 := Step(cfg, s1, Read(0));
    assert s2 == s.(clients := [Issuing(false, FailuresOk)]);
    var s3 := Step(cfg, s2, Read(0));
    assert s3 == s.(clients := [Issuing(false, ThrottleOk)]);
    var s4 := Step(cfg, s3, Read(0));
    assert s4 == s.(clients := [Issuing(false, Counted(CountOf(s.keys.budget)))]);
    FourSteps(cfg, s, BeginIssue(0), Read(0), Read(0), Read(0));
    RunAppend(cfg, s, [BeginIssue(0), Read(0), Read(0), Read(0)], [Read(0)]);
    assert Run(cfg, s4, [Read(0)]) == Run(cfg, Step(cfg, s4, Read(0)), []);
  }

  lemma FirstIssue(cfg: Config)
    requires Usable(cfg) && 0 < cfg.requestLimit && 0 < cfg.blockLimit
    ensures Run(cfg, Between(0, None, []), ISSUE_READ + [Exec(0, "")]) == Aged(cfg, 0)
  {
    var s := Between(0, None, []);
    IssueRead(cfg, s);
    RunAppend(cfg, s, ISSUE_READ, [Exec(0, "")]);
    var s5 := s.(clients := [Issuing(false, Timed(0, 0, 0))]);
    assert CommitsIssue(s5, 0);
    assert Run(cfg, s5, [Exec(0, "")]) == Run(cfg, Step(cfg, s5, Exec(0, "")), []);
    assert Step(cfg, s5, Exec(0, "")).clients == [Idle];
  }

  lemma {:induction false} Aging(cfg: Config, now: nat, d: nat)
    ensures Run(cfg, Aged(cfg, now), Ticks(d)) == Aged(cfg, now + d)
    decreases d
  {
    if d > 0 {
      assert Step(cfg, Aged(cfg, now), Tick).clients == [Idle];
      assert Step(cfg, Aged(cfg, now), Tick) == Aged(cfg, now + 1);
      assert Ticks(d)[0] == Tick && Ticks(d)[1..] == Ticks(d - 1);
      Aging(cfg, now + 1, d - 1);
    }
  }

  /** A second code after the cooldown, committed a second after the budget's lifetime was read. */
  function LateIssue(cfg: Config): seq<Event> {
    [Arrive] + ((ISSUE_READ + [Exec(0, "")]) + (Ticks(cfg.cooldown) + (ISSUE_READ + [Tick])))
  }

  /** It leaves other keys than the undisturbed issue would. */
  lemma IssueDrifts(cfg: Config)
    requires Usable(cfg) && 1 < cfg.requestLimit && 0 < cfg.blockLimit
    requires cfg.cooldown + 1 < cfg.requestWindow && cfg.cooldown + 1 < cfg.ttl
    ensures var s := Run(cfg, Initial(), LateIssue(cfg));
            CommitsIssue(s, 0) &&
            Step(cfg, s, Exec(0, "")).keys != AtomicIssue(cfg, s.keys, |s.issues|, "", s.now)
  {
    hide Aged, Ticks, Between;
    var first, second := ISSUE_READ + [Exec(0, "")], ISSUE_READ + [Tick];
    Arrived(cfg);
    RunAppend(cfg, Initial(), [Arrive], first + (Ticks(cfg.cooldown) + second));
    FirstIssue(cfg);
    RunAppend(cfg, Between(0, None, []), first, Ticks(cfg.cooldown) + second);
    Aging(cfg, 0, cfg.cooldown);
    RunAppend(cfg, Aged(cfg, 0), Ticks(cfg.cooldown), second);
    SecondIssue(cfg);
    CommittedIssueIsSerial(cfg, LateIssue(cfg), 0, "");
  }

  lemma SecondIssue(cfg: Config)
    requires Usable(cfg) && 1 < cfg.requestLimit && 0 < cfg.blockLimit
    requires cfg.cooldown + 1 < cfg.requestWindow && cfg.cooldown + 1 < cfg.ttl
    ensures var s := Run(cfg, Aged(cfg, cfg.cooldown), ISSUE_READ + [Tick]);
            CommitsIssue(s, 0) && s.keys.budget.Some? && s.clients[0].issue.at < s.now
  {
    var s := Aged(cfg, cfg.cooldown);
    IssueRead(cfg, s);
    RunAppend(cfg, s, ISSUE_READ, [Tick]);
    var s5 := s.(clients := [Issuing(false, Timed(1, cfg.requestWindow - cfg.cooldown, cfg.cooldown))]);
    assert Run(cfg, s5, [Tick]) == Run(cfg, Step(cfg, s5, Tick), []);
    assert Step(cfg, s5, Tick).clients == s5.clients;
  }

  // ---------------------------------------------------------------- a code that was issued, and a guess at it

  /** Nobody moves for `d` seconds. */
  lemma {:induction false} Idling(cfg: Config, s: State, d: nat)
    requires s.keys == Live(s.keys, s.now)
    ensures var t := Run(cfg, s, Ticks(d));
            && t.now == s.now + d && t.keys == Live(s.keys, s.now + d) && |t.clients| == |s.clients|
            && t.issues == s.issues && t.wrongs == s.wrongs && t.spent == s.spent
            && forall c | 0 <= c < |s.clients| && s.clients[c].Idle? :: t.clients[c].Idle?
    decreases d
  {
    if d > 0 {
      assert Ticks(d)[0] == Tick && Ticks(d)[1..] == Ticks(d - 1);
      var t := Step(cfg, s, Tick);
      assert forall c | 0 <= c < |s.clients| && s.clients[c].Idle? :: t.clients[c].Idle?;
      Idling(cfg, t, d - 1);
    }
  }

  function Trying(c: nat, guess: string, keep: bool): seq<Event> {
    [BeginConsume(c, guess, keep), Read(c), Read(c), Read(c)] + [Exec(c, "")]
  }

  /** A consumer alone, below the limit: accepted exactly when its guess is the code in force. */
  lemma ConsumerAlone(cfg: Config, s: State, c: nat, guess: string, keep: bool)
    requires c < |s.clients| && s.clients[c].Idle? && CountOf(s.keys.failures) < cfg.attemptLimit
    ensures var t := Run(cfg, s, Trying(c, guess, keep));
            if s.keys.challenge.Some? && s.keys.challenge.value.code == guess then
              && t.keys == s.keys.(challenge := if keep then s.keys.challenge else None) && t.wrongs == s.wrongs
              && t.spent == s.spent + (if keep then [] else [s.keys.challenge.value.nonce])
            else
              && t.spent == s.spent && |t.wrongs| == |s.wrongs| + 1 && s.wrongs <= t.wrongs
              && CountOf(t.keys.failures) == CountOf(s.keys.failures) + 1
  {
    var raw, attempts := s.keys.challenge, CountOf(s.keys.failures);
    var ttl := Ttl(s.keys.failures, s.now);
    var s1 := Step(cfg, s, BeginConsume(c, guess, keep));
    assert s1 == To(s, c, Consuming(false, guess, keep, Begun));
    var s2 := Step(cfg, s1, Read(c));
    assert s2 == To(s, c, Consuming(false, guess, keep, Fetched(raw)));
    var s3 := Step(cfg, s2, Read(c));
    assert s3 == To(s, c, Consuming(false, guess, keep, Tried(raw, attempts)));
    var s4 := Step(cfg, s3, Read(c));
    assert s4 == To(s, c, Consuming(false, guess, keep, Ready(raw, attempts, ttl, s.now)));
    FourSteps(cfg, s, BeginConsume(c, guess, keep), Read(c), Read(c), Read(c));
    RunAppend(cfg, s, [BeginConsume(c, guess, keep), Read(c), Read(c), Read(c)], [Exec(c, "")]);
    assert Run(cfg, s4, [Exec(c, "")]) == Run(cfg, Step(cfg, s4, Exec(c, "")), []);
  }

  /** In every run: after a committed issue of `code`, a consumer alone within `ttl` seconds and below the limit is
      accepted if and only if its guess is `code`; after that no guess is. */
  lemma IssuedCodeIsTheOneAccepted(cfg: Config, es: seq<Event>, c: nat, code: string, d: nat, guess: string, keep: bool)
    requires Usable(cfg) && CommitsIssue(Run(cfg, Initial(), es), c)
    requires var t := Run(cfg, Step(cfg, Run(cfg, Initial(), es), Exec(c, code)), Ticks(d)); CountOf(t.keys.failures) < cfg.attemptLimit
    ensures var s := Run(cfg, Initial(), es);
            var t := Run(cfg, Step(cfg, s, Exec(c, code)), Ticks(d));
            var u := Run(cfg, t, Trying(c, guess, keep));
            if d < cfg.ttl && guess == code then
              && u.spent == s.spent + (if keep then [] else [|s.issues|]) && u.wrongs == s.wrongs
              && u.keys.failures == t.keys.failures && (u.keys.challenge.None? <==> !keep)
            else
              u.spent == s.spent && |u.wrongs| == |s.wrongs| + 1 && CountOf(u.keys.failures) == CountOf(t.keys.failures) + 1
  {
    RunKeeps(cfg, Initial(), es);
    var s := Run(cfg, Initial(), es);
    var s1 := Step(cfg, s, Exec(c, code));
    JustIssued(cfg, s, c, code);
    hide Run, Step, Trying, Inv, CommitsIssue;
    Idling(cfg, s1, d);
    ConsumerAlone(cfg, Run(cfg, s1, Ticks(d)), c, guess, keep);
  }

  lemma JustIssued(cfg: Config, s: State, c: nat, code: string)
    requires Usable(cfg) && Inv(cfg, s) && CommitsIssue(s, c)
    ensures var t := Step(cfg, s, Exec(c, code));
            && t.keys.challenge == Some(Challenge(|s.issues|, code, s.now + cfg.ttl)) && t.keys == Live(t.keys, t.now)
            && t.wrongs == s.wrongs && t.spent == s.spent && t.now == s.now
            && c < |t.clients| && t.clients[c] == Idle
  {
    ExecKeeps(cfg, s, c, code);
    LiveKeys(cfg, Step(cfg, s, Exec(c, code)));
  }

  /** A code that was sent is accepted, and only that code, until it expires `ttl` seconds after it was sent; a guess that
      is accepted uses it up unless it is kept, and any other is counted. */
  method IssueThenConsume(store: CodeStore, code: string, guess: string, keep: bool, sentAt: nat, usedAt: nat)
    returns (sent: bool, valid: bool)
    requires sentAt <= usedAt && store.keys == Live(store.keys, sentAt)
    modifies store
    ensures var failures := Live(old(store.keys), usedAt).failures;
            sent && CountOf(failures) < store.cfg.attemptLimit ==>
              && (valid <==> usedAt < sentAt + store.cfg.ttl && guess == code)
              && (valid ==> store.keys.failures == failures && (store.keys.challenge.None? <==> !keep))
              && (!valid ==> CountOf(store.keys.failures) == CountOf(failures) + 1)
    ensures sent && CountOf(Live(old(store.keys), usedAt).failures) >= store.cfg.attemptLimit ==> !valid
  {
    var wait;
    sent, wait := store.Issue(code, sentAt);
    store.keys := Live(store.keys, usedAt);
    valid := store.Consume(guess, keep, usedAt);
  }
}
