/** Which plan changes are accepted, said without the reading they are decided on, and what comes of a schedule
    that a request left half-made. */
module PlanAcceptance {
  import opened Wrappers
  import opened PlanChange

  /** Active, paid automatically, one item of one known plan, nothing waiting for payment. */
  ghost predicate Changeable(cfg: Config, sub: Subscription) {
    && sub.status == "active" && sub.pendingUpdate.None? && sub.periodEnd > 0 && sub.plain
    && |sub.items| == 1 && sub.items[0].quantity == 1 && sub.items[0].price in cfg.known
    && cfg.known[sub.items[0].price] in {Monthly, Annual, ProMonthly, ProAnnual}
  }

  /** Ours, for this customer, and its first phase after the period, if there is one, sells one known plan. */
  ghost predicate Ours(cfg: Config, sub: Subscription, schedule: Schedule) {
    && schedule.customer == sub.customer
    && "b4a_managed" in schedule.metadata && schedule.metadata["b4a_managed"] == "period_end_v1"
    && forall i | 0 <= i < |schedule.phases| && FirstAfter(schedule.phases, sub.periodEnd, i) ::
         var items := schedule.phases[i].items;
         |items| == 1 && items[0].price in cfg.known && !cfg.known[items[0].price].Unknown?
  }

  predicate FirstAfter(phases: seq<Phase>, time: nat, i: nat) {
    i < |phases| && phases[i].start >= time && forall k | 0 <= k < i :: phases[k].start < time
  }

  lemma {:induction false} FromStartsWith(phases: seq<Phase>, time: nat)
    ensures From(phases, time) == [] <==> forall i | 0 <= i < |phases| :: phases[i].start < time
    ensures forall i | 0 <= i < |phases| && FirstAfter(phases, time, i) :: From(phases, time) != [] && From(phases, time)[0] == phases[i]
    ensures From(phases, time) != [] ==> exists i :: 0 <= i < |phases| && FirstAfter(phases, time, i)
    decreases |phases|
  {
    if phases != [] {
      FromStartsWith(phases[1..], time);
      if phases[0].start >= time {
        assert FirstAfter(phases, time, 0);
      } else {
        forall i | 0 <= i < |phases| && FirstAfter(phases, time, i)
          ensures From(phases, time) != [] && From(phases, time)[0] == phases[i]
        {
          assert FirstAfter(phases[1..], time, i - 1);
        }
        if From(phases, time) != [] {
          var i :| 0 <= i < |phases[1..]| && FirstAfter(phases[1..], time, i);
          assert FirstAfter(phases, time, i + 1);
        }
      }
    }
  }

  /** What may be managed, in terms of the subscription and its schedule alone. */
  lemma ManageableExactlyWhen(cfg: Config, sub: Subscription, schedule: Option<Schedule>)
    ensures Respond(cfg, sub, schedule).canManage <==>
            Changeable(cfg, sub) && (schedule.Some? ==> Ours(cfg, sub, schedule.value))
  {
    if schedule.Some? { FromStartsWith(schedule.value.phases, sub.periodEnd); }
  }

  /** What the customer is shown as coming: the plan of our schedule's first phase after the period, else the end of
      the subscription if it is cancelled, else nothing. */
  lemma PendingIs(cfg: Config, sub: Subscription, schedule: Option<Schedule>)
    requires Changeable(cfg, sub) && (schedule.Some? ==> Ours(cfg, sub, schedule.value))
    ensures var pending := Respond(cfg, sub, schedule).pending;
            && (schedule.Some? ==> forall i | 0 <= i < |schedule.value.phases| && FirstAfter(schedule.value.phases, sub.periodEnd, i) ::
                  pending == Some(cfg.known[schedule.value.phases[i].items[0].price]))
            && (schedule.None? || (forall i | 0 <= i < |schedule.value.phases| :: schedule.value.phases[i].start < sub.periodEnd) ==>
                  pending == if sub.cancel then Some(Free) else None)
  {
    if schedule.Some? { FromStartsWith(schedule.value.phases, sub.periodEnd); }
  }

  /** A request that has nothing on record is accepted exactly when there is one subscription, the customer's, that may
      be changed and reads as the request expects, more than a minute before its period ends and with the plan on
      sale; ending or keeping the subscription is possible to the last second. */
  lemma AcceptedExactlyWhen(cfg: Config, p: Provider, form: Form, now: nat)
    requires WellFormed(p) && forall k | k in p.journal :: k.request != form.request
    ensures Decide(cfg, p, form, now).Go? <==>
            && p.others == 0 && p.sub.customer == cfg.customer && Changeable(cfg, p.sub)
            && (p.sub.schedule.Some? ==> Ours(cfg, p.sub, p.schedules[p.sub.schedule.value]))
            && (var plan := cfg.known[p.sub.items[0].price];
                && form.expected == Version(p.sub.id, plan, p.sub.currency, "active", Some(p.sub.periodEnd), p.sub.cancel, p.sub.schedule,
                                            if p.sub.schedule.Some? then From(p.schedules[p.sub.schedule.value].phases, p.sub.periodEnd) else [], None)
                && (form.plan.Free? || form.plan.Keep? ||
                    (p.sub.periodEnd > now + 60 && (form.plan == plan || (form.plan, p.sub.currency) in cfg.offered))))
  {
    ManageableExactlyWhen(cfg, p.sub, Attached(p));
    if Decide(cfg, p, form, now).Go? { HowAccepted(cfg, p, form, now); }
  }

  /** The provider after the first call of a change that has to create its schedule. */
  lemma AfterCreation(cfg: Config, p: Provider, form: Form, now: nat)
    requires WellFormed(p) && (forall k | k in p.journal :: k.request != form.request) && Decide(cfg, p, form, now).Go?
    requires Paid(form.plan) && form.plan != form.expected.plan && (Pro(form.plan) ==> Pro(form.expected.plan))
    requires p.sub.schedule.None? && !p.sub.cancel
    ensures var q := Attempt(cfg, p, form, now, 1).0; var key := Key(form.request, ":create");
            var made := Schedule(p.sub.customer, map[], [Phase(p.terms.phaseStart, At(p.sub.periodEnd), p.sub.items)], p.terms.phaseStart);
            q == p.(sub := p.sub.(schedule := Some(p.nextSid)), schedules := p.schedules[p.nextSid := made], nextSid := p.nextSid + 1,
                    journal := p.journal[key := Entry(CreateSchedule, Some(Handle(p.nextSid, p.terms.phaseStart, p.sub.customer)))])
  {
    HowAccepted(cfg, p, form, now);
    AcceptedVersion(cfg, p, form);
    hide Respond;
    var was := Decide(cfg, p, form, now);
    ExecFirst(p, form, was.instrs, was.handle, 1);
  }

  /** The retry does pick up what the first delivery left half-made: sent again more than a minute before the period
      ends, it is accepted although the schedule is not one that may be managed, and completes the change. */
  lemma HalfMadeIsResumed(cfg: Config, p: Provider, form: Form, now0: nat, now1: nat)
    requires WellFormed(p) && (forall k | k in p.journal :: k.request != form.request) && Decide(cfg, p, form, now0).Go?
    requires Paid(form.plan) && form.plan != form.expected.plan && (Pro(form.plan) ==> Pro(form.expected.plan))
    requires p.sub.schedule.None? && !p.sub.cancel && now0 <= now1 && now1 + 60 < p.sub.periodEnd
    ensures var q := Attempt(cfg, p, form, now0, 1).0;
            && q.sub.schedule.Some? && !Current(cfg, q).canManage
            && Decide(cfg, q, form, now1).Go?
            && Attempt(cfg, q, form, now1, ALL).0 == Attempt(cfg, p, form, now0, ALL).0
  {
    AfterCreation(cfg, p, form, now0);
    var q := Attempt(cfg, p, form, now0, 1).0;
    HowAccepted(cfg, p, form, now0);
    AcceptedVersion(cfg, p, form);
    ManageableExactlyWhen(cfg, p.sub, None);
    ManageableExactlyWhen(cfg, q.sub, Attached(q));
    assert q.sub.(schedule := None) == p.sub;
    assert Original(cfg, q) == Current(cfg, p);
    assert Recover(cfg, q, form) == Some(true) by { hide Respond; }
    assert Decide(cfg, q, form, now1).Go? by { hide Respond, Recover; }
    CrashThenRetry(cfg, p, form, now0, now1, 1);
  }

  /** Half-made by the look of it: not to be managed, but untouched since it was created from a subscription that could be
      changed, and that without it reads as the request expects. */
  ghost predicate LooksHalfMade(cfg: Config, p: Provider, form: Form)
    requires WellFormed(p)
  {
    p.sub.schedule.Some? && Changeable(cfg, p.sub) &&
    var made := p.schedules[p.sub.schedule.value];
    && !Ours(cfg, p.sub, made) && made.metadata == map[] && |made.phases| <= 1
    && (|made.phases| == 1 ==> made.phases[0].items == [Item(p.sub.items[0].price, 1)])
    && form.expected == Version(p.sub.id, cfg.known[p.sub.items[0].price], p.sub.currency, "active", Some(p.sub.periodEnd),
                                p.sub.cancel, None, [], None)
  }

  /** Why a request that has nothing on record is refused: several subscriptions, another request's half-made schedule,
      which the provider does not create again, anything that may not be changed or reads otherwise or is too late,
      another customer's subscription, or a plan that is not on sale, in this order. */
  lemma RefusedAs(cfg: Config, p: Provider, form: Form, now: nat)
    requires WellFormed(p) && (forall k | k in p.journal :: k.request != form.request) && Decide(cfg, p, form, now).Refuse?
    ensures var paid := !form.plan.Free? && !form.plan.Keep?;
            var unlike := !Changeable(cfg, p.sub)
                          || (p.sub.schedule.Some? && !Ours(cfg, p.sub, p.schedules[p.sub.schedule.value]))
                          || Current(cfg, p).version != form.expected || (paid && p.sub.periodEnd <= now + 60);
            Decide(cfg, p, form, now).reason ==
              if p.others > 0 then Conflict
              else if paid && LooksHalfMade(cfg, p, form) then ProviderError
              else if unlike then Conflict
              else if p.sub.customer != cfg.customer then NotFound
              else PlanUnavailable
  {
    ManageableExactlyWhen(cfg, p.sub, Attached(p));
    ManageableExactlyWhen(cfg, p.sub.(schedule := None), None);
    HalfMadeExactlyWhen(cfg, p, form);
    hide Respond;
  }

  lemma HalfMadeExactlyWhen(cfg: Config, p: Provider, form: Form)
    requires WellFormed(p)
    ensures LooksHalfMade(cfg, p, form) <==>
            p.sub.schedule.Some? && !Current(cfg, p).canManage && Untouched(p.sub, Attached(p).value)
            && Original(cfg, p).canManage && Original(cfg, p).version == form.expected
  {
    ManageableExactlyWhen(cfg, p.sub, Attached(p));
    ManageableExactlyWhen(cfg, p.sub.(schedule := None), None);
  }

  /** A run is done only when all its calls were made; one that stops for lack of time has crashed. */
  lemma {:induction false} DoneExactlyWhen(p: Provider, form: Form, instrs: seq<Instr>, handle: Option<Handle>, budget: nat)
    ensures var (q, outcome) := Exec(p, form, instrs, handle, budget);
            && (outcome == Done ==> budget >= |instrs|) && (outcome == Crashed ==> budget < |instrs|)
            && (outcome == Done || outcome == Crashed || outcome == ProviderError)
    decreases |instrs|
  {
    if instrs != [] && budget > 0 {
      ExecFirst(p, form, instrs, handle, budget);
      var f := First(p, form, instrs[0], handle);
      if f.Some? { DoneExactlyWhen(f.value.0, form, instrs[1..], f.value.1, budget - 1); }
    }
  }

  /** A request that dies right after detaching the schedule leaves the subscription at its price; a cancellation is kept
      for an upgrade and dropped otherwise. */
  lemma StoppedAfterRelease(cfg: Config, p: Provider, form: Form, now: nat)
    requires WellFormed(p) && (forall k | k in p.journal :: k.request != form.request) && Decide(cfg, p, form, now).Go?
    requires p.sub.schedule.Some?
    requires form.plan.Free? || form.plan.Keep? || form.plan == form.expected.plan || (Pro(form.plan) && !Pro(form.expected.plan))
    ensures var (q, outcome) := Attempt(cfg, p, form, now, 1);
            var upgrade := !form.plan.Free? && !form.plan.Keep? && form.plan != form.expected.plan;
            outcome == Crashed && q.sub == p.sub.(schedule := None, cancel := upgrade && p.sub.cancel)
  {
    HowAccepted(cfg, p, form, now);
    AcceptedVersion(cfg, p, form);
    hide Respond;
    var was := Decide(cfg, p, form, now);
    ExecFirst(p, form, was.instrs, was.handle, 1);
  }
}
