/** What every run of the email codes guarantees: codes are spent once, guesses and issues are limited, and committed
    transactions are serial up to a drift of their counter's expiry. */
module EmailCodeGuarantees {
  import opened Wrappers
  import opened CounterLedger
  import opened EmailCodes

  /** In every interleaving of the commands, each issued code is spent at most once. */
  lemma SpentAtMostOnce(cfg: Config, es: seq<Event>, i: nat, j: nat)
    requires Usable(cfg)
    requires var spent := Run(cfg, Initial(), es).spent; i < |spent| && j < |spent| && spent[i] == spent[j]
    ensures i == j
  {
    RunKeeps(cfg, Initial(), es);
  }

  /** Wrong guesses: at most the limit in one life of the failure key, so that limit + 1 in a row span
      two; fewer than twice the limit in any window; and at most the limit in a window that is counted
      from the opening of a life. */
  lemma WrongGuessesAreBounded(cfg: Config, es: seq<Event>, i: nat)
    requires Usable(cfg)
    ensures var wrongs := Run(cfg, Initial(), es).wrongs;
            && (i + cfg.attemptLimit < |wrongs| ==> wrongs[i].life < wrongs[i + cfg.attemptLimit].life)
            && (0 < cfg.attemptLimit && i + 2 * cfg.attemptLimit - 1 < |wrongs| ==>
                  wrongs[i + 2 * cfg.attemptLimit - 1].at >= wrongs[i].at + cfg.window)
            && (i + cfg.attemptLimit < |wrongs| && wrongs[i].rank == 1 ==>
                  wrongs[i + cfg.attemptLimit].at >= wrongs[i].at + cfg.window)
  {
    RunKeeps(cfg, Initial(), es);
    var wrongs := Run(cfg, Initial(), es).wrongs;
    if wrongs != [] { assert Sound(wrongs, 0, cfg.attemptLimit); }
    if i + cfg.attemptLimit < |wrongs| { LimitPerLife(wrongs, cfg.attemptLimit, cfg.window, i); }
    if 0 < cfg.attemptLimit && i + 2 * cfg.attemptLimit - 1 < |wrongs| {
      TwiceLimitPerWindow(wrongs, cfg.attemptLimit, cfg.window, i);
    }
    if i + cfg.attemptLimit < |wrongs| && wrongs[i].rank == 1 { LimitFromOpening(wrongs, cfg.attemptLimit, cfg.window, i); }
  }

  /** Codes: at least a cooldown apart; at most the limit in one life of the budget key; fewer than twice
      the limit in any request window; and at most the limit in one that is counted from the opening of a
      life. */
  lemma IssuesAreBounded(cfg: Config, es: seq<Event>, i: nat)
    requires Usable(cfg)
    ensures var issues := Run(cfg, Initial(), es).issues;
            && (i + 1 < |issues| ==> issues[i + 1].at >= issues[i].at + cfg.cooldown)
            && (i + cfg.requestLimit < |issues| ==> issues[i].life < issues[i + cfg.requestLimit].life)
            && (0 < cfg.requestLimit && i + 2 * cfg.requestLimit - 1 < |issues| ==>
                  issues[i + 2 * cfg.requestLimit - 1].at >= issues[i].at + cfg.requestWindow)
            && (i + cfg.requestLimit < |issues| && issues[i].rank == 1 ==>
                  issues[i + cfg.requestLimit].at >= issues[i].at + cfg.requestWindow)
  {
    RunKeeps(cfg, Initial(), es);
    var issues := Run(cfg, Initial(), es).issues;
    if issues != [] { assert Sound(issues, 0, cfg.requestLimit); }
    if i + cfg.requestLimit < |issues| { LimitPerLife(issues, cfg.requestLimit, cfg.requestWindow, i); }
    if 0 < cfg.requestLimit && i + 2 * cfg.requestLimit - 1 < |issues| {
      TwiceLimitPerWindow(issues, cfg.requestLimit, cfg.requestWindow, i);
    }
    if i + cfg.requestLimit < |issues| && issues[i].rank == 1 { LimitFromOpening(issues, cfg.requestLimit, cfg.requestWindow, i); }
  }

  /** What a committed issue leaves differs from the undisturbed operation at most in the budget's
      expiry, which is later by the seconds between reading its TTL and writing it back. */
  lemma CommittedIssueIsSerial(cfg: Config, es: seq<Event>, c: nat, code: string)
    requires Usable(cfg) && CommitsIssue(Run(cfg, Initial(), es), c)
    ensures var s := Run(cfg, Initial(), es);
            var late := s.now - s.clients[c].issue.at;
            var serial := AtomicIssue(cfg, s.keys, |s.issues|, code, s.now);
            && MayIssue(cfg, s.keys) && late >= 0
            && Step(cfg, s, Exec(c, code)).keys == serial.(budget := Some(Counter(serial.budget.value.count,
                 serial.budget.value.expires + if s.keys.budget.Some? then late else 0)))
            && (Step(cfg, s, Exec(c, code)).keys == serial <==> s.keys.budget.None? || late == 0)
  {
    RunKeeps(cfg, Initial(), es);
    var s := Run(cfg, Initial(), es);
    assert ClientInv(cfg, s, s.clients[c]);
  }

  lemma InitialHolds(cfg: Config)
    ensures Inv(cfg, Initial())
  {
  }

  lemma StillRead(cfg: Config, s: State, c: nat)
    requires Inv(cfg, s) && CommitsConsume(s, c)
    ensures ConsumeInv(cfg, s, s.clients[c].consume) && s.keys == Live(s.keys, s.now)
  {
    assert ClientInv(cfg, s, s.clients[c]);
  }

  /** A guess whose readings still hold, committed now. */
  lemma GuessIsSerial(cfg: Config, s: State, c: nat, code: string)
    requires CommitsConsume(s, c) && ConsumeInv(cfg, s, s.clients[c].consume) && s.keys == Live(s.keys, s.now)
    ensures var p := s.clients[c];
            var late := s.now - p.consume.at;
            var right := s.keys.challenge.Some? && s.keys.challenge.value.code == p.guess;
            var serial := AtomicConsume(cfg, s.keys, p.guess, p.keep, s.now);
            var done := Step(cfg, s, Exec(c, code)).keys;
            && late >= 0 && CountOf(s.keys.failures) < cfg.attemptLimit
            && done == (if right then serial
                        else serial.(failures := Some(Counter(serial.failures.value.count,
                               serial.failures.value.expires + if s.keys.failures.Some? then late else 0))))
            && (done == serial <==> right || s.keys.failures.None? || late == 0)
  {
    assert Step(cfg, s, Exec(c, code)) == DoConsume(cfg, s, c);
  }

  /** The same for a committed guess and the failure key; a right guess is serial outright. */
  lemma CommittedGuessIsSerial(cfg: Config, es: seq<Event>, c: nat, code: string)
    requires Usable(cfg) && CommitsConsume(Run(cfg, Initial(), es), c)
    ensures var s := Run(cfg, Initial(), es); var p := s.clients[c];
            var late := s.now - p.consume.at;
            var right := s.keys.challenge.Some? && s.keys.challenge.value.code == p.guess;
            var serial := AtomicConsume(cfg, s.keys, p.guess, p.keep, s.now);
            var done := Step(cfg, s, Exec(c, code)).keys;
            && late >= 0 && CountOf(s.keys.failures) < cfg.attemptLimit
            && done == (if right then serial
                        else serial.(failures := Some(Counter(serial.failures.value.count,
                               serial.failures.value.expires + if s.keys.failures.Some? then late else 0))))
            && (done == serial <==> right || s.keys.failures.None? || late == 0)
  {
    hide Run, Step, AtomicConsume, Inv, ConsumeInv, Usable, Live;
    InitialHolds(cfg);
    RunKeeps(cfg, Initial(), es);
    StillRead(cfg, Run(cfg, Initial(), es), c);
    GuessIsSerial(cfg, Run(cfg, Initial(), es), c, code);
  }
}
