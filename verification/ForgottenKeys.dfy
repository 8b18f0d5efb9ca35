/** What a retried plan change does after the provider has forgotten the request's keys. */
module ForgottenKeys {
  import opened Wrappers
  import opened PlanChange

  /** The provider a day later: nothing of this request is on record any more. */
  function Forgot(p: Provider, request: string): Provider {
    p.(journal := map k | k in p.journal && k.request != request :: p.journal[k])
  }

  lemma NothingToForget(p: Provider, request: string)
    requires Unused(p, request)
    ensures Forgot(p, request) == p
  {
    assert Forgot(p, request).journal == p.journal;
  }

  lemma {:induction false} ExecRecordsItsOwn(p: Provider, form: Form, instrs: seq<Instr>, handle: Option<Handle>, budget: nat)
    requires Unused(p, form.request)
    ensures Forgot(Exec(p, form, instrs, handle, budget).0, form.request).journal == p.journal
    decreases |instrs|
  {
    JournalGrows(p, p, form, instrs, handle, budget);
    NothingToForget(p, form.request);
  }

  lemma {:induction false} JournalGrows(p0: Provider, p: Provider, form: Form, instrs: seq<Instr>, handle: Option<Handle>, budget: nat)
    requires forall k: Key | k.request != form.request :: Lookup(p.journal, k) == Lookup(p0.journal, k)
    ensures forall k: Key | k.request != form.request ::
              Lookup(Exec(p, form, instrs, handle, budget).0.journal, k) == Lookup(p0.journal, k)
    decreases |instrs|
  {
    if instrs != [] && budget > 0 {
      ExecFirst(p, form, instrs, handle, budget);
      var f := First(p, form, instrs[0], handle);
      if f.Some? {
        FirstRecordsItsOwn(p, form, instrs[0], handle);
        JournalGrows(p0, f.value.0, form, instrs[1..], f.value.1, budget - 1);
      }
    }
  }

  lemma FirstRecordsItsOwn(p: Provider, form: Form, i: Instr, handle: Option<Handle>)
    requires First(p, form, i, handle).Some?
    ensures forall k: Key | k.request != form.request ::
              Lookup(First(p, form, i, handle).value.0.journal, k) == Lookup(p.journal, k)
  {
  }

  /** A request that has nothing on record cannot resume a schedule. */
  lemma OnlyDirect(cfg: Config, p: Provider, form: Form, now: nat)
    requires WellFormed(p) && Unused(p, form.request) && Decide(cfg, p, form, now).Go?
    ensures Direct(cfg, p, form)
  {
    HowAccepted(cfg, p, form, now);
  }

  /** What two accepted readings of one request have in common. */
  ghost predicate SameReading(p: Provider, q: Provider) {
    && |p.sub.items| == 1 && |q.sub.items| == 1
    && q.sub.schedule == p.sub.schedule && q.sub.cancel == p.sub.cancel && q.sub.periodEnd == p.sub.periodEnd
    && q.sub.pendingUpdate == p.sub.pendingUpdate == None && q.sub.currency == p.sub.currency
  }

  lemma AcceptedTwice(cfg: Config, p: Provider, q: Provider, form: Form)
    requires Direct(cfg, p, form) && Direct(cfg, q, form)
    ensures SameReading(p, q) && Current(cfg, p).plan == Current(cfg, q).plan == form.expected.plan
  {
    AcceptedVersion(cfg, p, form);
    AcceptedVersion(cfg, q, form);
  }

  /** Up to what is on record. */
  ghost predicate Alike(p: Provider, q: Provider) {
    q == p.(journal := q.journal)
  }

  /** Free, keep and upgrades: unless the edit was made, nothing was. */
  lemma ReleaseForgotten(p: Provider, q: Provider, form: Form, step: string, preserve: bool, last: Instr, handle: Option<Handle>, budget: nat)
    requires Unused(p, form.request) && last.Do? && (last.call.SetCancel? || last.call.Upgrade?)
    requires q == Exec(p, form, ReleaseFirst(p, step, preserve) + [last], handle, budget).0 && SameReading(p, q)
    ensures var f := Forgot(q, form.request);
            f == p || (p.sub.schedule.None? && Effect(p, last.call).Some? && Alike(Effect(p, last.call).value.0, q)
                       && Effect(f, last.call).Some? && Alike(Effect(p, last.call).value.0, Effect(f, last.call).value.0))
  {
    var f := Forgot(q, form.request);
    ExecRecordsItsOwn(p, form, ReleaseFirst(p, step, preserve) + [last], handle, budget);
    NothingToForget(p, form.request);
    ReleaseStates(p, form, step, preserve, last, handle, budget);
    if q != p && p.sub.schedule.Some? {
      var release := Do(step, Release(p.sub.schedule.value, preserve));
      var r := First(p, form, release, handle).value.0;
      assert r.sub.schedule.None?;
      if q != r { EditKeepsSchedule(r, form, last, handle); }
      assert false;
    }
  }

  /** One call of an unused request is its effect, put on record. */
  lemma SingleCall(p: Provider, form: Form, last: Instr, handle: Option<Handle>)
    requires Unused(p, form.request) && last.Do?
    ensures var q := Exec(p, form, [last], handle, ALL).0;
            if Effect(p, last.call).Some? then Alike(Effect(p, last.call).value.0, q) else q == p
  {
    ExecFirst(p, form, [last], handle, ALL);
  }

  ghost predicate RetriesSafely(cfg: Config, p: Provider, q: Provider, form: Form, now0: nat, now1: nat) {
    var f := Forgot(q, form.request);
    var (r, outcome) := Attempt(cfg, f, form, now1, ALL);
    (Decide(cfg, f, form, now1) == Refuse(outcome) && r == f) || Alike(Attempt(cfg, p, form, now0, ALL).0, r)
  }

  /** Nothing has happened, so the retry is the first attempt. */
  lemma SameAgain(cfg: Config, p: Provider, q: Provider, form: Form, now0: nat, now1: nat)
    requires WellFormed(p) && Unused(p, form.request) && now0 <= now1 && Forgot(q, form.request) == p
    requires Decide(cfg, p, form, now0).Go?
    ensures RetriesSafely(cfg, p, q, form, now0, now1)
  {
    if Decide(cfg, p, form, now1).Go? {
      HowAccepted(cfg, p, form, now0);
      HowAccepted(cfg, p, form, now1);
    }
  }

  lemma ForgottenEdit(cfg: Config, p: Provider, form: Form, step: string, preserve: bool, last: Instr, now0: nat, now1: nat, budget: nat)
    requires WellFormed(p) && Unused(p, form.request) && now0 <= now1 && Decide(cfg, p, form, now0).Go?
    requires last.Do? && (last.call.SetCancel? || last.call.Upgrade?)
    requires Decide(cfg, p, form, now0).instrs == ReleaseFirst(p, step, preserve) + [last]
    requires var q := Attempt(cfg, p, form, now0, budget).0; var f := Forgot(q, form.request);
             && SameReading(p, q) && Decide(cfg, f, form, now1).Go?
             && Decide(cfg, f, form, now1).instrs == ReleaseFirst(f, step, preserve) + [last]
    ensures RetriesSafely(cfg, p, Attempt(cfg, p, form, now0, budget).0, form, now0, now1)
  {
    hide Decide, Effect, Exec;
    var was := Decide(cfg, p, form, now0);
    var q := Attempt(cfg, p, form, now0, budget).0;
    var f := Forgot(q, form.request);
    ReleaseForgotten(p, q, form, step, preserve, last, was.handle, budget);
    if f == p {
      SameAgain(cfg, p, q, form, now0, now1);
    } else {
      assert was.instrs == [last] && Decide(cfg, f, form, now1).instrs == [last];
      SingleCall(p, form, last, was.handle);
      SingleCall(f, form, last, Decide(cfg, f, form, now1).handle);
    }
  }

  /** A change at the period's end: unless the phases of a schedule of old were rewritten, nothing was done. */
  lemma PeriodForgotten(p: Provider, q: Provider, form: Form, price: string, until: Until, budget: nat)
    requires WellFormed(p) && Unused(p, form.request) && |p.sub.items| == 1
    requires q == Exec(p, form, PeriodCalls(p, price, until), HandleOf(p), budget).0 && SameReading(p, q)
    ensures var f := Forgot(q, form.request); var last := Reschedule(p.sub.periodEnd, p.sub.items[0].price, price, until);
            f == p || (p.sub.schedule.Some? && !p.sub.cancel && First(p, form, last, HandleOf(p)).Some?
                       && q == First(p, form, last, HandleOf(p)).value.0)
  {
    var instrs := PeriodCalls(p, price, until);
    ExecRecordsItsOwn(p, form, instrs, HandleOf(p), budget);
    NothingToForget(p, form.request);
    if budget > 0 {
      ExecFirst(p, form, instrs, HandleOf(p), budget);
      var first := First(p, form, instrs[0], HandleOf(p));
      if first.Some? {
        var (p', handle) := first.value;
        if p.sub.cancel {
          StaysResumed(p', form, instrs[1..], handle, budget - 1);
        } else if p.sub.schedule.None? {
          StaysAttached(p', form, instrs[1..], handle, budget - 1);
        } else {
          assert instrs[1..] == [];
        }
      }
    }
  }

  lemma {:induction false} StaysResumed(p: Provider, form: Form, instrs: seq<Instr>, handle: Option<Handle>, budget: nat)
    requires !p.sub.cancel && forall i | 0 <= i < |instrs| :: instrs[i].Make? || instrs[i].Reschedule?
    ensures !Exec(p, form, instrs, handle, budget).0.sub.cancel
    decreases |instrs|
  {
    if instrs != [] && budget > 0 {
      ExecFirst(p, form, instrs, handle, budget);
      var f := First(p, form, instrs[0], handle);
      if f.Some? { StaysResumed(f.value.0, form, instrs[1..], f.value.1, budget - 1); }
    }
  }

  lemma {:induction false} StaysAttached(p: Provider, form: Form, instrs: seq<Instr>, handle: Option<Handle>, budget: nat)
    requires p.sub.schedule.Some? && forall i | 0 <= i < |instrs| :: instrs[i].Reschedule?
    ensures Exec(p, form, instrs, handle, budget).0.sub.schedule.Some?
    decreases |instrs|
  {
    if instrs != [] && budget > 0 {
      ExecFirst(p, form, instrs, handle, budget);
      var f := First(p, form, instrs[0], handle);
      if f.Some? { StaysAttached(f.value.0, form, instrs[1..], f.value.1, budget - 1); }
    }
  }

  /** Rewriting the phases once more writes the same phases. */
  lemma RewrittenAgain(p: Provider, q: Provider, f: Provider, form: Form, last: Instr)
    requires WellFormed(p) && last.Reschedule? && Attached(p).Some? && Unused(f, form.request) && f == q.(journal := f.journal)
    requires First(p, form, last, HandleOf(p)).Some? && q == First(p, form, last, HandleOf(p)).value.0 && Unused(p, form.request)
    ensures First(f, form, last, HandleOf(f)).Some? && Alike(q, First(f, form, last, HandleOf(f)).value.0)
  {
    var sid := p.sub.schedule.value;
    var again := First(f, form, last, HandleOf(f)).value.0;
    assert q.schedules[sid].metadata + MANAGED == q.schedules[sid].metadata;
    assert again.schedules == q.schedules;
  }

  lemma ForgottenPeriod(cfg: Config, p: Provider, form: Form, price: string, now0: nat, now1: nat, budget: nat)
    requires WellFormed(p) && Unused(p, form.request) && now0 <= now1 && |p.sub.items| == 1
    requires Decide(cfg, p, form, now0) == Go(PeriodCalls(p, price, Interval(form.plan)), HandleOf(p))
    requires Current(cfg, p).plan == form.expected.plan
    requires var q := Attempt(cfg, p, form, now0, budget).0; var f := Forgot(q, form.request);
             && SameReading(p, q) && Decide(cfg, f, form, now1) == Go(PeriodCalls(f, price, Interval(form.plan)), HandleOf(f))
    ensures RetriesSafely(cfg, p, Attempt(cfg, p, form, now0, budget).0, form, now0, now1)
  {
    hide Decide, Exec, Effect, Current;
    var q := Attempt(cfg, p, form, now0, budget).0;
    var f := Forgot(q, form.request);
    var instrs := PeriodCalls(p, price, Interval(form.plan));
    var last := Reschedule(p.sub.periodEnd, p.sub.items[0].price, price, Interval(form.plan));
    PeriodForgotten(p, q, form, price, Interval(form.plan), budget);
    if f == p {
      SameAgain(cfg, p, q, form, now0, now1);
    } else {
      PhasesOnly(p, form, last);
      RewrittenAgain(p, q, f, form, last);
      assert instrs == [last] && PeriodCalls(f, price, Interval(form.plan)) == [last];
      assert [last][1..] == [];
      ExecFirst(p, form, [last], HandleOf(p), ALL);
      ExecFirst(f, form, [last], HandleOf(f), ALL);
      Nothing(q, form, HandleOf(p));
      Nothing(First(f, form, last, HandleOf(f)).value.0, form, HandleOf(f));
    }
  }

  lemma Nothing(p: Provider, form: Form, handle: Option<Handle>)
    ensures Exec(p, form, [], handle, ALL - 1) == (p, Done)
  {
  }

  lemma PhasesOnly(p: Provider, form: Form, last: Instr)
    requires last.Reschedule? && p.sub.schedule.Some? && First(p, form, last, HandleOf(p)).Some?
    ensures First(p, form, last, HandleOf(p)).value.0.sub == p.sub && Attached(p).Some?
    ensures First(p, form, last, HandleOf(p)).value.1 == HandleOf(p)
  {
  }

  /** The retry theorem without the provider's memory: a request that died after any number of calls and is sent
      again when all its keys are forgotten either is refused, and changes nothing, or leaves the provider as an
      uninterrupted run would have, apart from what is on record. */
  lemma ForgottenRetry(cfg: Config, p: Provider, form: Form, now0: nat, now1: nat, budget: nat)
    requires WellFormed(p) && Unused(p, form.request) && now0 <= now1
    ensures var f := Forgot(Attempt(cfg, p, form, now0, budget).0, form.request);
            var (r, outcome) := Attempt(cfg, f, form, now1, ALL);
            || (Decide(cfg, f, form, now1) == Refuse(outcome) && r == f)
            || Alike(Attempt(cfg, p, form, now0, ALL).0, r)
  {
    var was := Decide(cfg, p, form, now0);
    var q := Attempt(cfg, p, form, now0, budget).0;
    var f := Forgot(q, form.request);
    NothingToForget(p, form.request);
    if was.Refuse? {
      RefusalsStay(cfg, p, form, now0, now1);
    } else if Decide(cfg, f, form, now1).Go? {
      AcceptedForgotten(cfg, p, form, now0, now1, budget);
      assert RetriesSafely(cfg, p, q, form, now0, now1);
    }
  }

  lemma AcceptedForgotten(cfg: Config, p: Provider, form: Form, now0: nat, now1: nat, budget: nat)
    requires WellFormed(p) && Unused(p, form.request) && now0 <= now1 && Decide(cfg, p, form, now0).Go?
    requires Decide(cfg, Forgot(Attempt(cfg, p, form, now0, budget).0, form.request), form, now1).Go?
    ensures RetriesSafely(cfg, p, Attempt(cfg, p, form, now0, budget).0, form, now0, now1)
  {
    var was := Decide(cfg, p, form, now0);
    var q := Attempt(cfg, p, form, now0, budget).0;
    var f := Forgot(q, form.request);
    ExecKeepsWellFormed(p, form, was.instrs, was.handle, budget);
    OnlyDirect(cfg, p, form, now0);
    OnlyDirect(cfg, f, form, now1);
    AcceptedTwice(cfg, p, f, form);
    HowAccepted(cfg, p, form, now0);
    HowAccepted(cfg, f, form, now1);
    hide Current, Original, Decide, RetriesSafely, Exec;
    if form.plan.Free? || form.plan.Keep? || form.plan == form.expected.plan {
      ForgottenEdit(cfg, p, form, ":release", false, Do(":cancel", SetCancel(form.plan.Free?)), now0, now1, budget);
    } else {
      var price := cfg.offered[(form.plan, p.sub.currency)];
      if Pro(form.plan) && !Pro(form.expected.plan) {
        ForgottenEdit(cfg, p, form, ":release-upgrade", true, Do(":upgrade", Upgrade(price)), now0, now1, budget);
      } else {
        ForgottenPeriod(cfg, p, form, price, now0, now1, budget);
      }
    }
  }
}
