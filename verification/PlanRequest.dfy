/** The plan-change request as the service writes it, call by call, against the provider's client. */
module PlanRequest {
  import opened Wrappers
  import opened PlanChange

  /** The provider behind its client: every call goes through the journal of idempotency keys. */
  class StripeClient {
    var state: Provider

    constructor (p: Provider)
      ensures state == p
    {
      state := p;
    }

    method Send(key: Key, call: Call) returns (accepted: bool, reply: Option<Handle>)
      modifies this
      ensures accepted == Perform(old(state), key, call).Some?
      ensures accepted ==> (state, reply) == Perform(old(state), key, call).value
      ensures !accepted ==> state == old(state) && reply == None
      // A key on record is answered from the record, and only for the call it was used for.
      ensures key in old(state).journal ==>
                && (accepted <==> old(state).journal[key].call == call) && state == old(state)
                && (accepted ==> reply == old(state).journal[key].reply)
    {
      if key in state.journal {
        if state.journal[key].call == call {
          return true, state.journal[key].reply;
        }
        return false, None;
      }
      var effect := Effect(state, call);
      if effect.None? {
        return false, None;
      }
      var (changed, answer) := effect.value;
      state := changed.(journal := changed.journal[key := Entry(call, answer)]);
      return true, answer;
    }
  }

  /** Detach the schedule if there is one, then make the one edit; dies after `budget` calls. */
  method ReleaseThenEdit(client: StripeClient, form: Form, step: string, preserve: bool, last: string, edit: Call, budget: nat)
    returns (outcome: Outcome)
    modifies client
    ensures var p := old(client.state);
            (client.state, outcome) ==
            Exec(p, form, ReleaseFirst(p, step, preserve) + [Do(last, edit)], HandleOf(p), budget)
  {
    var p := client.state;
    var left := budget;
    ghost var rest := ReleaseFirst(p, step, preserve) + [Do(last, edit)];
    if p.sub.schedule.Some? {
      if left == 0 { return Crashed; }
      ExecFirst(p, form, rest, HandleOf(p), left);
      var accepted, _ := client.Send(Key(form.request, step), Release(p.sub.schedule.value, preserve));
      if !accepted { return ProviderError; }
      left, rest := left - 1, rest[1..];
    }
    assert rest == [Do(last, edit)];
    if left == 0 { return Crashed; }
    ExecFirst(client.state, form, rest, HandleOf(p), left);
    var accepted, _ := client.Send(Key(form.request, last), edit);
    return if accepted then Done else ProviderError;
  }

  /** Lift a cancellation, create a schedule unless there is one, and rewrite its phases. */
  method ChangeAtPeriodEnd(client: StripeClient, form: Form, newPrice: string, until: Until, budget: nat)
    returns (outcome: Outcome)
    requires |client.state.sub.items| == 1
    modifies client
    ensures var p := old(client.state);
            (client.state, outcome) == Exec(p, form, PeriodCalls(p, newPrice, until), HandleOf(p), budget)
  {
    var p := client.state;
    var schedule, left := HandleOf(p), budget;
    ghost var rest := PeriodCalls(p, newPrice, until);
    if p.sub.cancel {
      if left == 0 { return Crashed; }
      ExecFirst(p, form, rest, schedule, left);
      var accepted, _ := client.Send(Key(form.request, ":resume"), SetCancel(false));
      if !accepted { return ProviderError; }
      left, rest := left - 1, rest[1..];
    }
    if p.sub.schedule.None? {
      assert rest[0] == Make;
      if left == 0 { return Crashed; }
      ExecFirst(client.state, form, rest, schedule, left);
      var accepted, reply := client.Send(Key(form.request, ":create"), CreateSchedule);
      if !accepted { return ProviderError; }
      left, rest, schedule := left - 1, rest[1..], reply;
    }
    var last := Reschedule(p.sub.periodEnd, p.sub.items[0].price, newPrice, until);
    assert rest == [last];
    if left == 0 { return Crashed; }
    ExecFirst(client.state, form, rest, schedule, left);
    var update := KeyAndCall(form, last, schedule);
    if update.None? { return ProviderError; }
    var accepted, _ := client.Send(update.value.0, update.value.1);
    return if accepted then Done else ProviderError;
  }

  /** services/billing.py, lines 675-707: may the unmanaged schedule be resumed?  Asks the provider to replay its creation. */
  method TryResume(client: StripeClient, cfg: Config, form: Form) returns (accepted: bool, resumed: bool)
    modifies client
    ensures client.state == old(client.state)
    ensures (if accepted then Some(resumed) else None) == Recover(cfg, old(client.state), form)
  {
    var p := client.state;
    if Attached(p).None? || Current(cfg, p).canManage || !Paid(form.plan) {
      return true, false;
    }
    var original := Original(cfg, p);
    if !Untouched(p.sub, Attached(p).value) || !original.canManage || original.version != form.expected {
      return true, false;
    }
    var ok, created := client.Send(Key(form.request, ":create"), CreateSchedule);
    return ok, ok && created.Some? && p.sub.schedule == Some(created.value.sid) && created.value.customer == p.sub.customer;
  }

  /** `_change_subscription`, dying after `budget` accepted calls. */
  method ChangeSubscription(client: StripeClient, cfg: Config, form: Form, now: nat, budget: nat) returns (outcome: Outcome)
    modifies client
    ensures (client.state, outcome) == Attempt(cfg, old(client.state), form, now, budget)
  {
    var p := client.state;
    if p.others > 0 {
      return Conflict;
    }
    var accepted, resumed := TryResume(client, cfg, form);
    if !accepted {
      return ProviderError;
    }
    var current := if resumed then Original(cfg, p) else Current(cfg, p);
    if !current.canManage || current.version != form.expected || (Paid(form.plan) && p.sub.periodEnd <= now + 60) {
      return Conflict;
    }
    if p.sub.customer != cfg.customer {
      return NotFound;
    }
    var target: Plan := if form.plan == current.plan then Keep else form.plan;
    if target.Free? || target.Keep? {
      outcome := ReleaseThenEdit(client, form, ":release", false, ":cancel", SetCancel(target.Free?), budget);
      return;
    }
    if (target, p.sub.currency) !in cfg.offered {
      return PlanUnavailable;
    }
    var price := cfg.offered[(target, p.sub.currency)];
    if Pro(target) && !Pro(current.plan) {
      outcome := ReleaseThenEdit(client, form, ":release-upgrade", true, ":upgrade", Upgrade(price), budget);
    } else {
      outcome := ChangeAtPeriodEnd(client, form, price, Interval(target), budget);
    }
  }
}
