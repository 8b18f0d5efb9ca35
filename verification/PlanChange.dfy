/**
 Changing the plan of a subscription: one request is a short list of keyed provider calls decided
 from one read of provider state, and the worker may die between any two of them.

 The provider replays a call it has already accepted under the same key, and rejects the key when
 it comes with other parameters.  The version hash is modelled by the record that is hashed.
 */
module PlanChange {
  import opened Wrappers

  datatype Plan = Free | Monthly | Annual | ProMonthly | ProAnnual | Keep | Unknown

  predicate Paid(p: Plan) {
    p.Monthly? || p.Annual? || p.ProMonthly? || p.ProAnnual?
  }

  predicate Pro(p: Plan) {
    p.ProMonthly? || p.ProAnnual?
  }

  // ---------------------------------------------------------------- provider state

  datatype Item = Item(price: string, quantity: nat)

  datatype Until = At(time: nat) | ForMonth | ForYear

  datatype Phase = Phase(start: nat, until: Until, items: seq<Item>)

  datatype Schedule = Schedule(customer: string, metadata: map<string, string>, phases: seq<Phase>, start: nat)

  /** `plain` stands for: charged automatically, without discounts, taxes, trial, pause or transfer. */
  datatype Subscription = Subscription(
    id: string,
    customer: string,
    status: string,
    currency: string,
    items: seq<Item>,
    periodEnd: nat,
    cancel: bool,
    schedule: Option<nat>,
    pendingUpdate: Option<nat>,
    plain: bool)

  datatype Call =
    | Release(sid: nat, preserveCancel: bool)
    | SetCancel(value: bool)
    | Upgrade(price: string)
    | CreateSchedule
    | UpdateSchedule(sid: nat, phases: seq<Phase>)

  datatype Key = Key(request: string, step: string)

  /** What the service keeps of a schedule the provider returned. */
  datatype Handle = Handle(sid: nat, start: nat, customer: string)

  datatype Entry = Entry(call: Call, reply: Option<Handle>)

  /** Choices of the provider this project does not decide: whether the prorated charge succeeds,
      when a pending update lapses, the period after an upgrade, when the running phase began, and
      whether cancellation may be edited while a schedule is attached. */
  datatype Terms = Terms(pays: bool, lapse: nat, upgradedEnd: nat, phaseStart: nat, strict: bool)

  datatype Provider = Provider(
    sub: Subscription,
    others: nat,
    schedules: map<nat, Schedule>,
    nextSid: nat,
    journal: map<Key, Entry>,
    terms: Terms)

  ghost predicate WellFormed(p: Provider) {
    && (p.sub.schedule.Some? ==> p.sub.schedule.value in p.schedules)
    && (forall sid | sid in p.schedules :: sid < p.nextSid)
    // A journalled creation names a schedule the provider knows, with the start it reported.
    && (forall k | k in p.journal && p.journal[k].call.CreateSchedule? ::
          && p.journal[k].reply.Some? && p.journal[k].reply.value.sid in p.schedules
          && p.schedules[p.journal[k].reply.value.sid].start == p.journal[k].reply.value.start)
  }

  const MANAGED := map["b4a_managed" := "period_end_v1"]

  /** The effect of a call the provider has not seen before. */
  function Effect(p: Provider, call: Call): Option<(Provider, Option<Handle>)> {
    match call
    case Release(sid, preserve) =>
      if p.sub.schedule != Some(sid) then None
      else Some((p.(sub := p.sub.(schedule := None, cancel := preserve && p.sub.cancel)), None))
    case SetCancel(value) =>
      if p.terms.strict && p.sub.schedule.Some? then None
      else Some((p.(sub := p.sub.(cancel := value)), None))
    case Upgrade(price) =>
      if p.terms.strict && p.sub.schedule.Some? then None
      else if p.terms.pays then
        Some((p.(sub := p.sub.(items := [Item(price, 1)], periodEnd := p.terms.upgradedEnd, cancel := false)), None))
      else Some((p.(sub := p.sub.(pendingUpdate := Some(p.terms.lapse))), None))
    case CreateSchedule =>
      if p.sub.schedule.Some? then None
      else
        var made := Schedule(p.sub.customer, map[], [Phase(p.terms.phaseStart, At(p.sub.periodEnd), p.sub.items)],
                             p.terms.phaseStart);
        Some((p.(sub := p.sub.(schedule := Some(p.nextSid)), schedules := p.schedules[p.nextSid := made],
                 nextSid := p.nextSid + 1),
              Some(Handle(p.nextSid, p.terms.phaseStart, p.sub.customer))))
    case UpdateSchedule(sid, phases) =>
      if p.sub.schedule != Some(sid) || sid !in p.schedules then None
      else
        var old' := p.schedules[sid];
        Some((p.(schedules := p.schedules[sid := old'.(metadata := old'.metadata + MANAGED, phases := phases)]), None))
  }

  /** One keyed call: replayed, rejected, refused or carried out and journalled. */
  function Perform(p: Provider, key: Key, call: Call): Option<(Provider, Option<Handle>)> {
    if key in p.journal then
      if p.journal[key].call == call then Some((p, p.journal[key].reply)) else None
    else
      match Effect(p, call)
      case None => None
      case Some((p', reply)) => Some((p'.(journal := p'.journal[key := Entry(call, reply)]), reply))
  }

  // ---------------------------------------------------------------- what the service reads

  /** `known` maps every price ever offered to its plan; `offered` the prices on sale now that the
      provider confirms as valid. */
  datatype Config = Config(customer: string, known: map<string, Plan>, offered: map<(Plan, string), string>)

  datatype Version = Version(
    id: string, plan: Plan, currency: string, status: string, end: Option<nat>, cancel: bool,
    schedule: Option<nat>, future: seq<Phase>, lapse: Option<nat>)

  datatype Managed = Managed(plan: Plan, canManage: bool, pending: Option<Plan>, version: Version)

  function PlanOf(cfg: Config, price: string): Plan {
    if price in cfg.known then cfg.known[price] else Unknown
  }

  function SinglePrice(items: seq<Item>): Option<string> {
    if |items| == 1 then Some(items[0].price) else None
  }

  function From(phases: seq<Phase>, time: nat): seq<Phase> {
    if phases == [] then []
    else (if phases[0].start >= time then [phases[0]] else []) + From(phases[1..], time)
  }

  /** The response for `sub`, whose schedule, if any, reads as `schedule`. */
  function Respond(cfg: Config, sub: Subscription, schedule: Option<Schedule>): Managed {
    var price := SinglePrice(sub.items);
    var plan := if price.Some? then PlanOf(cfg, price.value) else Unknown;
    var end := if price.Some? then Some(sub.periodEnd) else None;
    var owned := schedule.None? ||
                 ("b4a_managed" in schedule.value.metadata &&
                  schedule.value.metadata["b4a_managed"] == "period_end_v1" &&
                  schedule.value.customer == sub.customer);
    var future := if schedule.Some? && end.Some? && end.value > 0 then From(schedule.value.phases, end.value) else [];
    var nextPlan := if future == [] then Unknown
                    else match SinglePrice(future[0].items)
                         case Some(x) => PlanOf(cfg, x)
                         case None => Unknown;
    var manageable :=
      sub.status == "active" && sub.pendingUpdate.None? && Paid(plan) && sub.periodEnd > 0 &&
      sub.items[0].quantity == 1 && sub.plain && owned;
    var blocked := owned && future != [] && nextPlan.Unknown?;
    Managed(
      plan,
      manageable && !blocked,
      if owned && future != [] && !nextPlan.Unknown? then Some(nextPlan) else if sub.cancel then Some(Free) else None,
      Version(sub.id, plan, sub.currency, sub.status, end, sub.cancel, sub.schedule, future, sub.pendingUpdate))
  }

  function Attached(p: Provider): Option<Schedule> {
    if p.sub.schedule.Some? && p.sub.schedule.value in p.schedules
    then Some(p.schedules[p.sub.schedule.value]) else None
  }

  function Current(cfg: Config, p: Provider): Managed {
    Respond(cfg, p.sub, Attached(p))
  }

  /** The response as it would read had no schedule been attached. */
  function Original(cfg: Config, p: Provider): Managed {
    Respond(cfg, p.sub.(schedule := None), None)
  }

  // ---------------------------------------------------------------- one request

  /** What a caller may ask for; `Unknown` only ever describes a price that is not on the list. */
  type Choice = p: Plan | !p.Unknown? witness Free

  datatype Form = Form(request: string, plan: Choice, expected: Version)

  datatype Instr = Do(step: string, call: Call) | Make | Reschedule(end: nat, oldPrice: string, newPrice: string, until: Until)

  datatype Outcome = NotFound | Conflict | PlanUnavailable | ProviderError | Crashed | Done

  datatype Decision = Refuse(reason: Outcome) | Go(instrs: seq<Instr>, handle: Option<Handle>)

  /** A schedule nobody has touched since it was created from this very subscription. */
  predicate Untouched(sub: Subscription, schedule: Schedule) {
    && |schedule.phases| <= 1 && schedule.metadata == map[]
    && (|schedule.phases| == 1 ==>
          && |schedule.phases[0].items| == 1 && |sub.items| > 0
          && schedule.phases[0].items[0].price == sub.items[0].price
          && schedule.phases[0].items[0].quantity == 1)
  }

  /** services/billing.py, lines 675-707: whether the half-made schedule may be resumed; None when the provider errs. */
  function Recover(cfg: Config, p: Provider, form: Form): Option<bool> {
    if Attached(p).None? || Current(cfg, p).canManage || !Paid(form.plan) then Some(false)
    else
      var original := Original(cfg, p);
      if !Untouched(p.sub, Attached(p).value) || !original.canManage || original.version != form.expected then Some(false)
      else
        match Perform(p, Key(form.request, ":create"), CreateSchedule)
        case None => None
        case Some((_, reply)) =>
          Some(reply.Some? && p.sub.schedule == Some(reply.value.sid) && reply.value.customer == p.sub.customer)
  }

  function HandleOf(p: Provider): Option<Handle> {
    match Attached(p)
    case None => None
    case Some(x) => Some(Handle(p.sub.schedule.value, x.start, x.customer))
  }

  function ReleaseFirst(p: Provider, step: string, preserve: bool): seq<Instr> {
    if p.sub.schedule.Some? then [Do(step, Release(p.sub.schedule.value, preserve))] else []
  }

  function Interval(target: Plan): Until {
    if target.Monthly? || target.ProMonthly? then ForMonth else ForYear
  }

  /** The calls a request makes once accepted with `current` as its starting point. */
  function Calls(cfg: Config, p: Provider, form: Form, current: Managed): Decision
    requires current.canManage ==> |p.sub.items| == 1
    requires current.canManage
  {
    var target := if form.plan == current.plan then Keep else form.plan;
    if target.Free? || target.Keep? then
      Go(ReleaseFirst(p, ":release", false) + [Do(":cancel", SetCancel(target.Free?))], HandleOf(p))
    else if (target, p.sub.currency) !in cfg.offered then Refuse(PlanUnavailable)
    else
      var price := cfg.offered[(target, p.sub.currency)];
      if Pro(target) && !Pro(current.plan) then
        Go(ReleaseFirst(p, ":release-upgrade", true) + [Do(":upgrade", Upgrade(price))], HandleOf(p))
      else
        Go((if p.sub.cancel then [Do(":resume", SetCancel(false))] else []) +
           (if p.sub.schedule.None? then [Make] else []) +
           [Reschedule(p.sub.periodEnd, p.sub.items[0].price, price, Interval(target))], HandleOf(p))
  }

  function Decide(cfg: Config, p: Provider, form: Form, now: nat): Decision {
    if p.others > 0 then Refuse(Conflict)
    else
      match Recover(cfg, p, form)
      case None => Refuse(ProviderError)
      case Some(resumed) =>
        var current := if resumed then Original(cfg, p) else Current(cfg, p);
        if !current.canManage || current.version != form.expected ||
           (Paid(form.plan) && p.sub.periodEnd <= now + 60) then Refuse(Conflict)
        else if p.sub.customer != cfg.customer then Refuse(NotFound)
        else Calls(cfg, p, form, current)
  }

  function KeyAndCall(form: Form, i: Instr, handle: Option<Handle>): Option<(Key, Call)> {
    match i
    case Do(step, call) => Some((Key(form.request, step), call))
    case Make => Some((Key(form.request, ":create"), CreateSchedule))
    case Reschedule(end, oldPrice, newPrice, until) =>
      if handle.None? then None
      else
        Some((Key(form.request, ":update"),
              UpdateSchedule(handle.value.sid,
                             [Phase(handle.value.start, At(end), [Item(oldPrice, 1)]),
                              Phase(end, until, [Item(newPrice, 1)])])))
  }

  /** Carries out at most `budget` calls; the worker is gone when the budget runs out. */
  function Exec(p: Provider, form: Form, instrs: seq<Instr>, handle: Option<Handle>, budget: nat): (Provider, Outcome)
    decreases |instrs|
  {
    if instrs == [] then (p, Done)
    else if budget == 0 then (p, Crashed)
    else
      match KeyAndCall(form, instrs[0], handle)
      case None => (p, ProviderError)
      case Some((key, call)) =>
        match Perform(p, key, call)
        case None => (p, ProviderError)
        case Some((p', reply)) =>
          Exec(p', form, instrs[1..], if instrs[0].Make? then reply else handle, budget - 1)
  }

  function Attempt(cfg: Config, p: Provider, form: Form, now: nat, budget: nat): (Provider, Outcome) {
    match Decide(cfg, p, form, now)
    case Refuse(reason) => (p, reason)
    case Go(instrs, handle) => Exec(p, form, instrs, handle, budget)
  }

  /** No request makes more calls than this. */
  const ALL: nat := 3

  // ---------------------------------------------------------------- replaying a crashed request

  /** The journal only grows, and what it says about a key never changes. */
  lemma PerformKeepsJournal(p: Provider, key: Key, call: Call, other: Key)
    requires Perform(p, key, call).Some? && other in p.journal
    ensures other in Perform(p, key, call).value.0.journal
    ensures Perform(p, key, call).value.0.journal[other] == p.journal[other]
  {
  }

  lemma PerformIsReplayed(p: Provider, key: Key, call: Call)
    requires Perform(p, key, call).Some?
    ensures var (p', reply) := Perform(p, key, call).value;
            key in p'.journal && p'.journal[key] == Entry(call, reply)
  {
  }

  lemma {:induction false} ExecKeepsJournal(p: Provider, form: Form, instrs: seq<Instr>, handle: Option<Handle>, budget: nat, key: Key)
    requires key in p.journal
    ensures var p' := Exec(p, form, instrs, handle, budget).0;
            key in p'.journal && p'.journal[key] == p.journal[key]
    decreases |instrs|
  {
    if instrs != [] && budget > 0 {
      var kc := KeyAndCall(form, instrs[0], handle);
      if kc.Some? && Perform(p, kc.value.0, kc.value.1).Some? {
        var (p', reply) := Perform(p, kc.value.0, kc.value.1).value;
        PerformKeepsJournal(p, kc.value.0, kc.value.1, key);
        ExecKeepsJournal(p', form, instrs[1..], if instrs[0].Make? then reply else handle, budget - 1, key);
      }
    }
  }

  /** Running the same calls again after a crash ends exactly where an uninterrupted run would have. */
  lemma {:induction false} SameCallsFinish(p: Provider, form: Form, instrs: seq<Instr>, handle: Option<Handle>, budget: nat, full: nat)
    requires full >= |instrs|
    ensures Exec(Exec(p, form, instrs, handle, budget).0, form, instrs, handle, full) ==
            Exec(p, form, instrs, handle, full)
    decreases |instrs|
  {
    if instrs != [] && budget > 0 {
      var kc := KeyAndCall(form, instrs[0], handle);
      if kc.Some? && Perform(p, kc.value.0, kc.value.1).Some? {
        var (key, call) := kc.value;
        var (p', reply) := Perform(p, key, call).value;
        var handle' := if instrs[0].Make? then reply else handle;
        PerformIsReplayed(p, key, call);
        ExecKeepsJournal(p', form, instrs[1..], handle', budget - 1, key);
        SameCallsFinish(p', form, instrs[1..], handle', budget - 1, full - 1);
      }
    }
  }

  /** Executing a list one call at a time: `p` after its first call, or `p` itself if that call fails. */
  function First(p: Provider, form: Form, i: Instr, handle: Option<Handle>): Option<(Provider, Option<Handle>)> {
    match KeyAndCall(form, i, handle)
    case None => None
    case Some((key, call)) =>
      match Perform(p, key, call)
      case None => None
      case Some((p', reply)) => Some((p', if i.Make? then reply else handle))
  }

  lemma ExecFirst(p: Provider, form: Form, instrs: seq<Instr>, handle: Option<Handle>, budget: nat)
    requires instrs != [] && budget > 0
    ensures Exec(p, form, instrs, handle, budget) ==
            match First(p, form, instrs[0], handle)
            case None => (p, ProviderError)
            case Some((p', handle')) => Exec(p', form, instrs[1..], handle', budget - 1)
  {
  }

  /** A call that leaves the state alone may be dropped from the front of a list. */
  lemma DropReplayed(p: Provider, form: Form, i: Instr, rest: seq<Instr>, handle: Option<Handle>, handle': Option<Handle>, full: nat)
    requires First(p, form, i, handle) == Some((p, handle')) && full > |rest|
    ensures Exec(p, form, [i] + rest, handle, full).0 == Exec(p, form, rest, handle', full).0
  {
    ExecFirst(p, form, [i] + rest, handle, full);
    assert ([i] + rest)[1..] == rest;
    MoreBudget(p, form, rest, handle', full - 1, full);
  }

  lemma {:induction false} MoreBudget(p: Provider, form: Form, instrs: seq<Instr>, handle: Option<Handle>, a: nat, b: nat)
    requires a >= |instrs| && b >= |instrs|
    ensures Exec(p, form, instrs, handle, a) == Exec(p, form, instrs, handle, b)
    decreases |instrs|
  {
    if instrs != [] {
      ExecFirst(p, form, instrs, handle, a);
      ExecFirst(p, form, instrs, handle, b);
      match First(p, form, instrs[0], handle)
      case None =>
      case Some((p', handle')) => MoreBudget(p', form, instrs[1..], handle', a - 1, b - 1);
    }
  }

  /** How a request is accepted: on the current reading, or by resuming its own half-made schedule. */
  ghost predicate Direct(cfg: Config, p: Provider, form: Form) {
    Current(cfg, p).canManage && Current(cfg, p).version == form.expected
  }

  ghost predicate Resumes(cfg: Config, p: Provider, form: Form) {
    && !Current(cfg, p).canManage && Original(cfg, p).canManage && Original(cfg, p).version == form.expected
    && p.sub.schedule.Some? && Attached(p).Some? && Untouched(p.sub, Attached(p).value)
    && var key := Key(form.request, ":create");
       key in p.journal && p.journal[key].call.CreateSchedule? && p.journal[key].reply.Some?
       && p.journal[key].reply.value.sid == p.sub.schedule.value
  }

  lemma HowAccepted(cfg: Config, p: Provider, form: Form, now: nat)
    requires WellFormed(p) && Decide(cfg, p, form, now).Go?
    ensures Direct(cfg, p, form) || Resumes(cfg, p, form)
    ensures Decide(cfg, p, form, now) ==
            Calls(cfg, p, form, if Direct(cfg, p, form) then Current(cfg, p) else Original(cfg, p))
  {
  }

  /** Both ways agree with the expected version on everything but the schedule. */
  lemma AcceptedVersion(cfg: Config, p: Provider, form: Form)
    requires Direct(cfg, p, form) || Resumes(cfg, p, form)
    ensures var v := form.expected;
            && |p.sub.items| == 1 && v.plan == PlanOf(cfg, p.sub.items[0].price) && v.currency == p.sub.currency
            && v.end == Some(p.sub.periodEnd) && v.cancel == p.sub.cancel && v.status == p.sub.status
            && v.lapse == p.sub.pendingUpdate
            && v.schedule == if Direct(cfg, p, form) then p.sub.schedule else None
    ensures Direct(cfg, p, form) ==> Current(cfg, p).plan == form.expected.plan
    ensures Original(cfg, p).plan == form.expected.plan
  {
  }

  /** What a retry from `q` must do to finish the run that was started from `p`. */
  ghost predicate Finishes(cfg: Config, p: Provider, q: Provider, form: Form, was: Decision, now: nat)
    requires was.Go?
  {
    var again := Decide(cfg, q, form, now);
    again.Refuse? ||
    Exec(q, form, again.instrs, again.handle, ALL).0 == Exec(q, form, was.instrs, was.handle, ALL).0
  }

  lemma PerformKeepsWellFormed(p: Provider, key: Key, call: Call)
    requires WellFormed(p) && Perform(p, key, call).Some?
    ensures WellFormed(Perform(p, key, call).value.0)
  {
  }

  lemma {:induction false} ExecKeepsWellFormed(p: Provider, form: Form, instrs: seq<Instr>, handle: Option<Handle>, budget: nat)
    requires WellFormed(p)
    ensures WellFormed(Exec(p, form, instrs, handle, budget).0)
    decreases |instrs|
  {
    if instrs != [] && budget > 0 {
      ExecFirst(p, form, instrs, handle, budget);
      var kc := KeyAndCall(form, instrs[0], handle);
      if kc.Some? && Perform(p, kc.value.0, kc.value.1).Some? {
        var (p', handle') := First(p, form, instrs[0], handle).value;
        PerformKeepsWellFormed(p, kc.value.0, kc.value.1);
        ExecKeepsWellFormed(p', form, instrs[1..], handle', budget - 1);
      }
    }
  }

  /** Only schedule updates look at the handle. */
  lemma {:induction false} HandleUnused(p: Provider, form: Form, instrs: seq<Instr>, h: Option<Handle>, h': Option<Handle>, budget: nat)
    requires forall i | 0 <= i < |instrs| :: instrs[i].Do?
    ensures Exec(p, form, instrs, h, budget).0 == Exec(p, form, instrs, h', budget).0
    decreases |instrs|
  {
    if instrs != [] && budget > 0 {
      ExecFirst(p, form, instrs, h, budget);
      ExecFirst(p, form, instrs, h', budget);
      var f := First(p, form, instrs[0], h);
      if f.Some? { HandleUnused(f.value.0, form, instrs[1..], h, h', budget - 1); }
    }
  }

  /** Release-then-edit requests: nothing, the release, or everything has happened by the crash. */
  lemma ReleaseStates(p: Provider, form: Form, step: string, preserve: bool, last: Instr, handle: Option<Handle>, budget: nat)
    requires last.Do?
    ensures var q := Exec(p, form, ReleaseFirst(p, step, preserve) + [last], handle, budget).0;
            || q == p
            || (p.sub.schedule.None? && First(p, form, last, handle).Some? && q == First(p, form, last, handle).value.0)
            || (p.sub.schedule.Some? &&
                var r := First(p, form, Do(step, Release(p.sub.schedule.value, preserve)), handle);
                r.Some? && (q == r.value.0 ||
                            (First(r.value.0, form, last, handle).Some? && q == First(r.value.0, form, last, handle).value.0)))
  {
    var instrs := ReleaseFirst(p, step, preserve) + [last];
    if budget > 0 {
      ExecFirst(p, form, instrs, handle, budget);
      if p.sub.schedule.Some? {
        var r := First(p, form, instrs[0], handle);
        assert instrs[1..] == [last];
        if r.Some? && budget > 1 { ExecFirst(r.value.0, form, [last], handle, budget - 1); }
      }
    }
  }

  /** Everything a call leaves alone apart from the fields of the subscription itself. */
  ghost predicate SameFrame(p: Provider, q: Provider) {
    q.schedules == p.schedules && q.sub.id == p.sub.id && q.others == p.others
  }

  lemma EditKeepsSchedule(p: Provider, form: Form, last: Instr, handle: Option<Handle>)
    requires last.Do? && (last.call.SetCancel? || last.call.Upgrade?)
    requires First(p, form, last, handle).Some?
    ensures var q := First(p, form, last, handle).value.0;
            SameFrame(p, q) && q.sub.schedule == p.sub.schedule
  {
  }

  lemma ReleaseIsOnRecord(p: Provider, form: Form, step: string, sid: nat, preserve: bool, handle: Option<Handle>)
    requires First(p, form, Do(step, Release(sid, preserve)), handle).Some?
    ensures var (q, h) := First(p, form, Do(step, Release(sid, preserve)), handle).value;
            && h == handle && SameFrame(p, q)
            && Key(form.request, step) in q.journal && q.journal[Key(form.request, step)].call == Release(sid, preserve)
            && (q == p || q.sub.schedule.None?)
  {
  }

  /** Such a request touches the subscription only, and a schedule it detached is on record. */
  lemma ReleaseFacts(p: Provider, form: Form, step: string, preserve: bool, last: Instr, handle: Option<Handle>, budget: nat)
    requires last.Do? && (last.call.SetCancel? || last.call.Upgrade?) && last.step != step
    ensures var q := Exec(p, form, ReleaseFirst(p, step, preserve) + [last], handle, budget).0;
            && SameFrame(p, q)
            && (q.sub.schedule == p.sub.schedule ||
                (q.sub.schedule.None? && p.sub.schedule.Some? &&
                 First(q, form, Do(step, Release(p.sub.schedule.value, preserve)), handle) == Some((q, handle))))
  {
    ReleaseStates(p, form, step, preserve, last, handle, budget);
    if p.sub.schedule.None? {
      if First(p, form, last, handle).Some? { EditKeepsSchedule(p, form, last, handle); }
    } else {
      var release := Do(step, Release(p.sub.schedule.value, preserve));
      if First(p, form, release, handle).Some? {
        ReleaseIsOnRecord(p, form, step, p.sub.schedule.value, preserve, handle);
        var r := First(p, form, release, handle).value.0;
        if First(r, form, last, handle).Some? {
          EditKeepsSchedule(r, form, last, handle);
          PerformKeepsJournal(r, Key(form.request, last.step), last.call, Key(form.request, step));
        }
      }
    }
  }

  /** The common argument: whatever the retry decides, its list is the old one, perhaps without
      a release that is already on record. */
  lemma ReleaseRetry(cfg: Config, p: Provider, q: Provider, form: Form, step: string, preserve: bool, last: Instr,
                     was: Decision, now1: nat)
    requires last.Do? && was.Go? && was.instrs == ReleaseFirst(p, step, preserve) + [last]
    requires Decide(cfg, q, form, now1).Go? && Decide(cfg, q, form, now1).instrs == ReleaseFirst(q, step, preserve) + [last]
    requires q.sub.schedule == p.sub.schedule ||
             (q.sub.schedule.None? && p.sub.schedule.Some? &&
              First(q, form, Do(step, Release(p.sub.schedule.value, preserve)), was.handle) == Some((q, was.handle)))
    ensures Finishes(cfg, p, q, form, was, now1)
  {
    hide Decide, Exec, First;
    var again := Decide(cfg, q, form, now1);
    if q.sub.schedule == p.sub.schedule {
      HandleUnused(q, form, was.instrs, was.handle, again.handle, ALL);
    } else {
      assert was.instrs == [was.instrs[0]] + [last] && again.instrs == [last];
      DropReplayed(q, form, was.instrs[0], [last], was.handle, was.handle, ALL);
      HandleUnused(q, form, [last], was.handle, again.handle, ALL);
    }
  }

  lemma FreeOrKeepRetry(cfg: Config, p: Provider, form: Form, now0: nat, now1: nat, budget: nat)
    requires WellFormed(p) && Decide(cfg, p, form, now0).Go?
    requires form.plan.Free? || form.plan.Keep? || form.plan == form.expected.plan
    ensures var was := Decide(cfg, p, form, now0);
            Finishes(cfg, p, Exec(p, form, was.instrs, was.handle, budget).0, form, was, now1)
  {
    var was := Decide(cfg, p, form, now0);
    HowAccepted(cfg, p, form, now0);
    AcceptedVersion(cfg, p, form);
    var last := Do(":cancel", SetCancel(form.plan.Free?));
    assert was.instrs == ReleaseFirst(p, ":release", false) + [last];
    ReleaseFacts(p, form, ":release", false, last, was.handle, budget);
    var q := Exec(p, form, was.instrs, was.handle, budget).0;
    if Decide(cfg, q, form, now1).Go? {
      ExecKeepsWellFormed(p, form, was.instrs, was.handle, budget);
      HowAccepted(cfg, q, form, now1);
      AcceptedVersion(cfg, q, form);
      ReleaseRetry(cfg, p, q, form, ":release", false, last, was, now1);
    }
  }

  lemma UpgradeRetry(cfg: Config, p: Provider, form: Form, now0: nat, now1: nat, budget: nat)
    requires WellFormed(p) && Decide(cfg, p, form, now0).Go?
    requires Pro(form.plan) && !Pro(form.expected.plan)
    ensures var was := Decide(cfg, p, form, now0);
            Finishes(cfg, p, Exec(p, form, was.instrs, was.handle, budget).0, form, was, now1)
  {
    var was := Decide(cfg, p, form, now0);
    HowAccepted(cfg, p, form, now0);
    AcceptedVersion(cfg, p, form);
    var last := Do(":upgrade", Upgrade(cfg.offered[(form.plan, p.sub.currency)]));
    assert was.instrs == ReleaseFirst(p, ":release-upgrade", true) + [last];
    ReleaseFacts(p, form, ":release-upgrade", true, last, was.handle, budget);
    var q := Exec(p, form, was.instrs, was.handle, budget).0;
    if Decide(cfg, q, form, now1).Go? {
      ExecKeepsWellFormed(p, form, was.instrs, was.handle, budget);
      HowAccepted(cfg, q, form, now1);
      AcceptedVersion(cfg, q, form);
      ReleaseRetry(cfg, p, q, form, ":release-upgrade", true, last, was, now1);
    }
  }

  // ---------------------------------------------------------------- changes at the end of the period

  /** Cancel edits, creations and schedule updates keep everything a retry reads but cancel and schedule. */
  ghost predicate Kept(p: Provider, q: Provider) {
    && q.others == p.others
    && q.sub == p.sub.(cancel := q.sub.cancel, schedule := q.sub.schedule)
    && (p.sub.schedule.Some? ==> q.sub.schedule == p.sub.schedule)
    && (forall sid | sid in p.schedules ::
          sid in q.schedules && q.schedules[sid].start == p.schedules[sid].start
          && q.schedules[sid].customer == p.schedules[sid].customer)
  }

  predicate PeriodInstr(i: Instr) {
    i.Make? || i.Reschedule? || i.call.SetCancel?
  }

  lemma FirstKept(p: Provider, form: Form, i: Instr, handle: Option<Handle>)
    requires WellFormed(p) && PeriodInstr(i) && First(p, form, i, handle).Some?
    ensures Kept(p, First(p, form, i, handle).value.0)
  {
  }

  lemma {:induction false} ExecKept(p: Provider, form: Form, instrs: seq<Instr>, handle: Option<Handle>, budget: nat)
    requires WellFormed(p) && forall i | 0 <= i < |instrs| :: PeriodInstr(instrs[i])
    ensures Kept(p, Exec(p, form, instrs, handle, budget).0)
    decreases |instrs|
  {
    if instrs != [] && budget > 0 {
      ExecFirst(p, form, instrs, handle, budget);
      var f := First(p, form, instrs[0], handle);
      if f.Some? {
        FirstKept(p, form, instrs[0], handle);
        var kc := KeyAndCall(form, instrs[0], handle).value;
        PerformKeepsWellFormed(p, kc.0, kc.1);
        ExecKept(f.value.0, form, instrs[1..], f.value.1, budget - 1);
      }
    }
  }

  /** Unless nothing happened, the first call is on record and would be replayed. */
  lemma FirstOnRecord(p: Provider, form: Form, instrs: seq<Instr>, handle: Option<Handle>, budget: nat)
    requires instrs != [] && instrs[0].Do?
    ensures var q := Exec(p, form, instrs, handle, budget).0;
            q == p || First(q, form, instrs[0], handle) == Some((q, handle))
  {
    if budget > 0 {
      ExecFirst(p, form, instrs, handle, budget);
      var key := Key(form.request, instrs[0].step);
      if First(p, form, instrs[0], handle).Some? {
        PerformIsReplayed(p, key, instrs[0].call);
        ExecKeepsJournal(First(p, form, instrs[0], handle).value.0, form, instrs[1..], handle, budget - 1, key);
      }
    }
  }

  function PeriodCalls(p: Provider, newPrice: string, until: Until): seq<Instr>
    requires |p.sub.items| == 1
  {
    (if p.sub.cancel then [Do(":resume", SetCancel(false))] else []) +
    (if p.sub.schedule.None? then [Make] else []) +
    [Reschedule(p.sub.periodEnd, p.sub.items[0].price, newPrice, until)]
  }

  /** A retry that finds its own creation on record skips it and updates the same schedule. */
  lemma ResumedFinishes(q: Provider, form: Form, cancel: bool, last: Instr, h: Option<Handle>)
    requires WellFormed(q) && last.Reschedule? && Attached(q).Some?
    requires var key := Key(form.request, ":create");
             key in q.journal && q.journal[key].call.CreateSchedule? && q.journal[key].reply.Some?
             && q.journal[key].reply.value.sid == q.sub.schedule.value
    requires cancel ==> First(q, form, Do(":resume", SetCancel(false)), h) == Some((q, h))
    requires cancel ==> First(q, form, Do(":resume", SetCancel(false)), HandleOf(q)) == Some((q, HandleOf(q)))
    ensures var head := if cancel then [Do(":resume", SetCancel(false))] else [];
            Exec(q, form, head + [Make] + [last], h, ALL).0 == Exec(q, form, head + [last], HandleOf(q), ALL).0
  {
    var reply := q.journal[Key(form.request, ":create")].reply;
    assert First(q, form, Make, h) == Some((q, reply));
    DropReplayed(q, form, Make, [last], h, reply, ALL);
    assert Exec(q, form, [last], reply, ALL).0 == Exec(q, form, [last], HandleOf(q), ALL).0 by {
      ExecFirst(q, form, [last], reply, ALL);
      ExecFirst(q, form, [last], HandleOf(q), ALL);
    }
    if cancel {
      var resume := Do(":resume", SetCancel(false));
      DropReplayed(q, form, resume, [Make] + [last], h, h, ALL);
      DropReplayed(q, form, resume, [last], HandleOf(q), HandleOf(q), ALL);
      assert [resume] + [Make] + [last] == [resume] + ([Make] + [last]);
    } else {
      assert [] + [Make] + [last] == [Make] + [last];
      assert [] + [last] == [last];
    }
  }

  lemma PeriodRetry(cfg: Config, p: Provider, form: Form, now0: nat, now1: nat, budget: nat)
    requires WellFormed(p) && Decide(cfg, p, form, now0).Go?
    requires Paid(form.plan) && form.plan != form.expected.plan && (Pro(form.plan) ==> Pro(form.expected.plan))
    ensures var was := Decide(cfg, p, form, now0);
            Finishes(cfg, p, Exec(p, form, was.instrs, was.handle, budget).0, form, was, now1)
  {
    var was := Decide(cfg, p, form, now0);
    HowAccepted(cfg, p, form, now0);
    AcceptedVersion(cfg, p, form);
    var price := cfg.offered[(form.plan, p.sub.currency)];
    assert was.instrs == PeriodCalls(p, price, Interval(form.plan));
    var q := Exec(p, form, was.instrs, was.handle, budget).0;
    ExecKept(p, form, was.instrs, was.handle, budget);
    ExecKeepsWellFormed(p, form, was.instrs, was.handle, budget);
    if Decide(cfg, q, form, now1).Go? {
      HowAccepted(cfg, q, form, now1);
      AcceptedVersion(cfg, q, form);
      var again := Decide(cfg, q, form, now1);
      assert again.instrs == PeriodCalls(q, price, Interval(form.plan));
      assert q.sub.cancel == p.sub.cancel;
      if q.sub.schedule == p.sub.schedule {
        assert again.instrs == was.instrs && again.handle == was.handle;
      } else {
        assert q != p && Resumes(cfg, q, form);
        if p.sub.cancel {
          FirstOnRecord(p, form, was.instrs, was.handle, budget);
        }
        ResumedFinishes(q, form, p.sub.cancel, was.instrs[|was.instrs| - 1], was.handle);
      }
    }
  }

  // ---------------------------------------------------------------- main results

  lemma RetryFinishes(cfg: Config, p: Provider, form: Form, now0: nat, now1: nat, budget: nat)
    requires WellFormed(p) && Decide(cfg, p, form, now0).Go?
    ensures var was := Decide(cfg, p, form, now0);
            Finishes(cfg, p, Exec(p, form, was.instrs, was.handle, budget).0, form, was, now1)
  {
    HowAccepted(cfg, p, form, now0);
    AcceptedVersion(cfg, p, form);
    if form.plan.Free? || form.plan.Keep? || form.plan == form.expected.plan {
      FreeOrKeepRetry(cfg, p, form, now0, now1, budget);
    } else if Pro(form.plan) && !Pro(form.expected.plan) {
      UpgradeRetry(cfg, p, form, now0, now1, budget);
    } else {
      PeriodRetry(cfg, p, form, now0, now1, budget);
    }
  }

  /** Waiting never turns a refusal into an acceptance. */
  lemma RefusalsStay(cfg: Config, p: Provider, form: Form, now0: nat, now1: nat)
    requires now0 <= now1 && Decide(cfg, p, form, now0).Refuse?
    ensures Decide(cfg, p, form, now1).Refuse?
  {
  }

  lemma EnoughBudget(cfg: Config, p: Provider, form: Form, now: nat)
    ensures var d := Decide(cfg, p, form, now); d.Go? ==> |d.instrs| <= ALL
  {
  }

  /** A request that died after any number of provider calls and is sent again either is refused, and
      changes nothing, or leaves the provider exactly as an uninterrupted run would have. */
  lemma CrashThenRetry(cfg: Config, p: Provider, form: Form, now0: nat, now1: nat, budget: nat)
    requires WellFormed(p) && now0 <= now1
    ensures var q := Attempt(cfg, p, form, now0, budget).0;
            var (r, outcome) := Attempt(cfg, q, form, now1, ALL);
            || (Decide(cfg, q, form, now1) == Refuse(outcome) && r == q)
            || r == Attempt(cfg, p, form, now0, ALL).0
  {
    var was := Decide(cfg, p, form, now0);
    if was.Refuse? {
      RefusalsStay(cfg, p, form, now0, now1);
    } else {
      var q := Attempt(cfg, p, form, now0, budget).0;
      EnoughBudget(cfg, p, form, now0);
      RetryFinishes(cfg, p, form, now0, now1, budget);
      SameCallsFinish(p, form, was.instrs, was.handle, budget, ALL);
    }
  }

  /** One delivery of the request: when it starts, and how many calls it gets to make. */
  datatype Delivery = Delivery(now: nat, budget: nat)

  ghost predicate InOrder(now: nat, ds: seq<Delivery>) {
    forall i | 0 <= i < |ds| :: now <= ds[i].now && (i > 0 ==> ds[i - 1].now <= ds[i].now)
  }

  function Deliver(cfg: Config, p: Provider, form: Form, ds: seq<Delivery>): Provider
    decreases |ds|
  {
    if ds == [] then p else Deliver(cfg, Attempt(cfg, p, form, ds[0].now, ds[0].budget).0, form, ds[1..])
  }

  lemma {:induction false} DeliverRefused(cfg: Config, p: Provider, form: Form, now: nat, ds: seq<Delivery>)
    requires Decide(cfg, p, form, now).Refuse? && InOrder(now, ds)
    ensures Deliver(cfg, p, form, ds) == p
    decreases |ds|
  {
    if ds != [] {
      RefusalsStay(cfg, p, form, now, ds[0].now);
      DeliverRefused(cfg, p, form, now, ds[1..]);
    }
  }

  lemma AttemptKeepsWellFormed(cfg: Config, p: Provider, form: Form, now: nat, budget: nat)
    requires WellFormed(p)
    ensures WellFormed(Attempt(cfg, p, form, now, budget).0)
  {
    var d := Decide(cfg, p, form, now);
    if d.Go? { ExecKeepsWellFormed(p, form, d.instrs, d.handle, budget); }
  }

  /** The same for any number of deliveries, each dying wherever it likes, before one that completes. */
  lemma {:induction false} AnyCrashesThenRetry(cfg: Config, p: Provider, form: Form, now0: nat, ds: seq<Delivery>, now1: nat)
    requires WellFormed(p) && InOrder(now0, ds + [Delivery(now1, ALL)])
    ensures var q := Deliver(cfg, p, form, ds);
            var (r, outcome) := Attempt(cfg, q, form, now1, ALL);
            || (Decide(cfg, q, form, now1) == Refuse(outcome) && r == q)
            || r == Attempt(cfg, p, form, now0, ALL).0
    decreases |ds|
  {
    assert now0 <= now1 by { assert (ds + [Delivery(now1, ALL)])[|ds|].now == now1; }
    if ds == [] {
      CrashThenRetry(cfg, p, form, now0, now1, 0);
      if Decide(cfg, p, form, now0).Refuse? { RefusalsStay(cfg, p, form, now0, now1); }
    } else {
      var all := ds + [Delivery(now1, ALL)];
      assert all[0] == ds[0] && all[1..] == ds[1..] + [Delivery(now1, ALL)];
      FromFirst(now0, all);
      assert all[|ds|].now == now1;
      var q1 := Attempt(cfg, p, form, ds[0].now, ds[0].budget).0;
      AttemptKeepsWellFormed(cfg, p, form, ds[0].now, ds[0].budget);
      AnyCrashesThenRetry(cfg, q1, form, ds[0].now, ds[1..], now1);
      CrashThenRetry(cfg, p, form, ds[0].now, ds[0].now, ds[0].budget);
      if Decide(cfg, q1, form, ds[0].now).Refuse? {
        assert InOrder(ds[0].now, ds[1..]) by {
          forall i | 0 <= i < |ds[1..]| ensures ds[1..][i] == all[1..][i] {}
        }
        DeliverRefused(cfg, q1, form, ds[0].now, ds[1..]);
        RefusalsStay(cfg, q1, form, ds[0].now, now1);
      } else if Decide(cfg, p, form, now0).Refuse? {
        RefusalsStay(cfg, p, form, now0, ds[0].now);
      }
    }
  }

  lemma {:induction false} FromFirst(now: nat, ds: seq<Delivery>)
    requires ds != [] && InOrder(now, ds)
    ensures forall i | 0 <= i < |ds| :: ds[0].now <= ds[i].now
    ensures InOrder(ds[0].now, ds[1..])
    decreases |ds|
  {
    if |ds| > 1 {
      assert InOrder(now, ds[1..]) by {
        forall i | 0 <= i < |ds[1..]| ensures now <= ds[1..][i].now && (i > 0 ==> ds[1..][i - 1].now <= ds[1..][i].now) {
          assert ds[1..][i] == ds[i + 1];
        }
      }
      FromFirst(now, ds[1..]);
      forall i | 0 <= i < |ds| ensures ds[0].now <= ds[i].now {
        if i > 0 { assert ds[1..][i - 1] == ds[i]; assert ds[1..][0] == ds[1]; assert ds[0].now <= ds[1].now; }
      }
      forall i | 0 <= i < |ds[1..]| ensures ds[0].now <= ds[1..][i].now {
        assert ds[1..][i] == ds[i + 1];
      }
    }
  }

  /** A request goes ahead on a schedule it could not manage only if this same request made it. */
  lemma OnlyItsOwnScheduleIsResumed(cfg: Config, p: Provider, form: Form, now: nat)
    requires WellFormed(p) && Decide(cfg, p, form, now).Go? && !Current(cfg, p).canManage
    ensures var key := Key(form.request, ":create");
            && key in p.journal && p.journal[key].call == CreateSchedule && p.journal[key].reply.Some?
            && p.sub.schedule == Some(p.journal[key].reply.value.sid)
            && Original(cfg, p).version == form.expected
            && var made := p.schedules[p.sub.schedule.value];
               made.metadata == map[] && |made.phases| <= 1
               && (|made.phases| == 1 ==> made.phases[0].items == [Item(p.sub.items[0].price, 1)])
  {
    HowAccepted(cfg, p, form, now);
  }

  // ---------------------------------------------------------------- what an uninterrupted run achieves

  ghost predicate Unused(p: Provider, request: string) {
    forall k | k in p.journal :: k.request != request
  }

  /** An upgrade whose charge failed and whose pending update has lapsed reads as it did before, so the same
      request is accepted again; the provider then only replays its recorded answer. */
  lemma LapsedUpgradeIsReplayed(cfg: Config, p: Provider, form: Form, now0: nat, now1: nat)
    requires WellFormed(p) && Decide(cfg, p, form, now0).Go? && Unused(p, form.request) && p.sub.schedule.None?
    requires Pro(form.plan) && !Pro(form.expected.plan) && !p.terms.pays && p.sub.periodEnd > now1 + 60
    ensures var q := Attempt(cfg, p, form, now0, ALL).0; var lapsed := q.(sub := q.sub.(pendingUpdate := None));
            && q.sub.pendingUpdate.Some? && lapsed.sub == p.sub
            && Key(form.request, ":upgrade") in lapsed.journal
            && Attempt(cfg, lapsed, form, now1, ALL) == (lapsed, Done)
  {
    HowAccepted(cfg, p, form, now0);
    AcceptedVersion(cfg, p, form);
    var was := Decide(cfg, p, form, now0);
    var last := Do(":upgrade", Upgrade(cfg.offered[(form.plan, p.sub.currency)]));
    assert was.instrs == [last];
    ExecFirst(p, form, [last], was.handle, ALL);
    var q := Attempt(cfg, p, form, now0, ALL).0;
    var lapsed := q.(sub := q.sub.(pendingUpdate := None));
    assert Current(cfg, lapsed) == Current(cfg, p);
    var again := Decide(cfg, lapsed, form, now1);
    assert again == Go([last], None);
    ExecFirst(lapsed, form, [last], None, ALL);
  }

  /** Free and keep end with no schedule and the cancellation as asked. */
  lemma FreeOrKeepAchieves(cfg: Config, p: Provider, form: Form, now: nat)
    requires WellFormed(p) && Decide(cfg, p, form, now).Go? && Unused(p, form.request)
    requires form.plan.Free? || form.plan.Keep? || form.plan == form.expected.plan
    ensures var (q, outcome) := Attempt(cfg, p, form, now, ALL);
            && outcome == Done && q.sub == p.sub.(schedule := None, cancel := form.plan.Free?)
            && Current(cfg, q).pending == if form.plan.Free? then Some(Free) else None
  {
    HowAccepted(cfg, p, form, now);
    AcceptedVersion(cfg, p, form);
    var was := Decide(cfg, p, form, now);
    var last := Do(":cancel", SetCancel(form.plan.Free?));
    assert was.instrs == ReleaseFirst(p, ":release", false) + [last];
    ExecFirst(p, form, was.instrs, was.handle, ALL);
    if p.sub.schedule.Some? {
      assert was.instrs[1..] == [last];
      var p' := First(p, form, was.instrs[0], was.handle).value.0;
      ExecFirst(p', form, [last], was.handle, ALL - 1);
    }
  }

  /** A paid-for upgrade moves to the new price at once and leaves nothing pending; an unpaid one keeps the price,
      waits for its payment, and cannot be changed meanwhile.  Either way the schedule is gone. */
  lemma UpgradeAchieves(cfg: Config, p: Provider, form: Form, now: nat)
    requires WellFormed(p) && Decide(cfg, p, form, now).Go? && Unused(p, form.request)
    requires (form.plan.ProMonthly? || form.plan.ProAnnual?) && (form.expected.plan.Monthly? || form.expected.plan.Annual?)
    ensures var (q, outcome) := Attempt(cfg, p, form, now, ALL);
            && outcome == Done
            && q.sub == (if p.terms.pays
                         then p.sub.(items := [Item(cfg.offered[(form.plan, p.sub.currency)], 1)],
                                     periodEnd := p.terms.upgradedEnd, schedule := None, cancel := false)
                         else p.sub.(schedule := None, pendingUpdate := Some(p.terms.lapse)))
            && (p.terms.pays ==> Current(cfg, q).pending == None)
            && (!p.terms.pays ==> !Current(cfg, q).canManage)
  {
    HowAccepted(cfg, p, form, now);
    AcceptedVersion(cfg, p, form);
    var was := Decide(cfg, p, form, now);
    var last := Do(":upgrade", Upgrade(cfg.offered[(form.plan, p.sub.currency)]));
    assert was.instrs == ReleaseFirst(p, ":release-upgrade", true) + [last];
    ExecFirst(p, form, was.instrs, was.handle, ALL);
    if p.sub.schedule.Some? {
      assert was.instrs[1..] == [last];
      var p' := First(p, form, was.instrs[0], was.handle).value.0;
      ExecFirst(p', form, [last], was.handle, ALL - 1);
    }
  }

  /** Any other change keeps the running phase and price to the end of the period, then the new price;
      cancellation is lifted, and the customer is shown the new plan as pending.  A provider that does not let
      cancellation be edited under a schedule refuses exactly when there are both, and nothing has changed. */
  lemma PeriodAchieves(cfg: Config, p: Provider, form: Form, now: nat)
    requires WellFormed(p) && Decide(cfg, p, form, now).Go? && Unused(p, form.request)
    requires form.plan.Monthly? || form.plan.Annual? ||
             ((form.plan.ProMonthly? || form.plan.ProAnnual?) && (form.expected.plan.ProMonthly? || form.expected.plan.ProAnnual?))
    requires form.plan != form.expected.plan && p.terms.phaseStart < p.sub.periodEnd
    requires Attached(p).Some? ==> Attached(p).value.start < p.sub.periodEnd
    requires PlanOf(cfg, cfg.offered[(form.plan, p.sub.currency)]) == form.plan
    ensures var (q, outcome) := Attempt(cfg, p, form, now, ALL);
            var start := if Attached(p).Some? then Attached(p).value.start else p.terms.phaseStart;
            var price := cfg.offered[(form.plan, p.sub.currency)];
            var until := if form.plan.Annual? || form.plan.ProAnnual? then ForYear else ForMonth;
            if p.terms.strict && p.sub.cancel && p.sub.schedule.Some? then outcome == ProviderError && q == p
            else
              && outcome == Done && q.sub == p.sub.(cancel := false, schedule := q.sub.schedule)
              && Attached(q).Some? && |p.sub.items| == 1
              && Attached(q).value.phases == [Phase(start, At(p.sub.periodEnd), [Item(p.sub.items[0].price, 1)]),
                                              Phase(p.sub.periodEnd, until, [Item(price, 1)])]
              && Current(cfg, q).pending == Some(form.plan) && Current(cfg, q).canManage
  {
    hide Decide, Perform, Current, Respond;
    PeriodDecision(cfg, p, form, now);
    var price := cfg.offered[(form.plan, p.sub.currency)];
    var instrs := PeriodCalls(p, price, Interval(form.plan));
    if p.terms.strict && p.sub.cancel && p.sub.schedule.Some? {
      ExecFirst(p, form, instrs, HandleOf(p), ALL);
      ResumeRefused(p, form, HandleOf(p));
    } else if p.sub.cancel {
      ResumeFirst(cfg, p, form, HandleOf(p));
      var p1 := First(p, form, instrs[0], HandleOf(p)).value.0;
      assert instrs[1..] == PeriodCalls(p1, price, Interval(form.plan));
      ExecFirst(p, form, instrs, HandleOf(p), ALL);
      PeriodTail(cfg, p1, form, price, HandleOf(p), ALL - 1);
    } else {
      PeriodTail(cfg, p, form, price, HandleOf(p), ALL);
    }
  }

  /** What a request for a change at the period's end decides, and on what. */
  lemma PeriodDecision(cfg: Config, p: Provider, form: Form, now: nat)
    requires WellFormed(p) && Decide(cfg, p, form, now).Go? && Unused(p, form.request)
    requires Paid(form.plan) && form.plan != form.expected.plan && (Pro(form.plan) ==> Pro(form.expected.plan))
    ensures |p.sub.items| == 1 && (form.plan, p.sub.currency) in cfg.offered && p.sub.periodEnd > 0
    ensures Decide(cfg, p, form, now) ==
            Go(PeriodCalls(p, cfg.offered[(form.plan, p.sub.currency)], Interval(form.plan)), HandleOf(p))
    ensures Original(cfg, p).canManage
    ensures Attached(p).Some? ==> Attached(p).value.customer == p.sub.customer
  {
    HowAccepted(cfg, p, form, now);
    AcceptedVersion(cfg, p, form);
  }

  lemma ResumeRefused(p: Provider, form: Form, handle: Option<Handle>)
    requires Unused(p, form.request) && p.terms.strict && p.sub.schedule.Some?
    ensures First(p, form, Do(":resume", SetCancel(false)), handle) == None
  {
  }

  /** Lifting the cancellation changes nothing else that the rest of the request looks at. */
  lemma ResumeFirst(cfg: Config, p: Provider, form: Form, handle: Option<Handle>)
    requires WellFormed(p) && Unused(p, form.request) && !(p.terms.strict && p.sub.schedule.Some?) && Original(cfg, p).canManage
    ensures var f := First(p, form, Do(":resume", SetCancel(false)), handle);
            && f.Some? && f.value.1 == handle
            && f.value.0 == p.(sub := p.sub.(cancel := false), journal := f.value.0.journal)
            && WellFormed(f.value.0) && Original(cfg, f.value.0).canManage
            && forall k | k in f.value.0.journal && k.request == form.request :: k.step == ":resume"
  {
  }

  lemma PeriodTail(cfg: Config, p: Provider, form: Form, price: string, handle: Option<Handle>, budget: nat)
    requires WellFormed(p) && !p.sub.cancel && |p.sub.items| == 1 && budget >= 2 && p.sub.periodEnd > 0
    requires forall k | k in p.journal && k.request == form.request :: k.step == ":resume"
    requires p.terms.phaseStart < p.sub.periodEnd && PlanOf(cfg, price) == form.plan && Paid(form.plan)
    requires p.sub.schedule.Some? ==>
               Attached(p).Some? && Attached(p).value.start < p.sub.periodEnd && handle == HandleOf(p)
               && Attached(p).value.customer == p.sub.customer
    requires Original(cfg, p).canManage
    ensures var (q, outcome) := Exec(p, form, PeriodCalls(p, price, Interval(form.plan)), handle, budget);
            var start := if Attached(p).Some? then Attached(p).value.start else p.terms.phaseStart;
            && outcome == Done && q.sub == p.sub.(schedule := q.sub.schedule) && Attached(q).Some?
            && Attached(q).value.phases == [Phase(start, At(p.sub.periodEnd), [Item(p.sub.items[0].price, 1)]),
                                            Phase(p.sub.periodEnd, Interval(form.plan), [Item(price, 1)])]
            && Current(cfg, q).pending == Some(form.plan) && Current(cfg, q).canManage
  {
    var instrs := PeriodCalls(p, price, Interval(form.plan));
    ExecFirst(p, form, instrs, handle, budget);
    if p.sub.schedule.None? {
      var (p', handle') := First(p, form, Make, handle).value;
      assert instrs[1..] == [instrs[1]];
      ExecFirst(p', form, instrs[1..], handle', budget - 1);
      Rescheduled(cfg, p', form, instrs[1], handle');
    } else {
      Rescheduled(cfg, p, form, instrs[0], handle);
    }
  }

  lemma Rescheduled(cfg: Config, p: Provider, form: Form, i: Instr, handle: Option<Handle>)
    requires i.Reschedule? && handle.Some? && Attached(p).Some? && handle.value.sid == p.sub.schedule.value
    requires Key(form.request, ":update") !in p.journal && i.end == p.sub.periodEnd > 0
    requires handle.value.start < i.end && Attached(p).value.customer == p.sub.customer && !p.sub.cancel
    requires PlanOf(cfg, i.newPrice) == form.plan && Paid(form.plan) && |p.sub.items| == 1
    requires Original(cfg, p).canManage
    ensures var f := First(p, form, i, handle);
            && f.Some? && var q := f.value.0;
            && q.sub == p.sub && Attached(q).Some?
            && Attached(q).value.phases == [Phase(handle.value.start, At(i.end), [Item(i.oldPrice, 1)]),
                                            Phase(i.end, i.until, [Item(i.newPrice, 1)])]
            && Current(cfg, q).pending == Some(form.plan) && Current(cfg, q).canManage
  {
    var q := First(p, form, i, handle).value.0;
    var running := Phase(handle.value.start, At(i.end), [Item(i.oldPrice, 1)]);
    var next := Phase(i.end, i.until, [Item(i.newPrice, 1)]);
    assert Attached(q).value.phases == [running, next];
    assert [running, next][1..] == [next] && [next][1..] == [];
    assert From([running, next], i.end) == From([next], i.end) == [next] + From([], i.end) == [next];
  }
}
