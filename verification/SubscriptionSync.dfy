/**
 The stored subscription snapshot of one customer.  Syncs and plan changes write it, each inside the
 customer's row lock, while the provider changes on its own and webhooks arrive in any order.

 An upgrade stores the answer of its own keyed call.  The provider keeps the answer with the key: `answers`
 names the version of its history that was answered.
 */
module SubscriptionSync {
  import opened Wrappers
  import P = PlanChange
  import A = PlanAcceptance

  /** What the provider would answer at one moment: the customer's current subscriptions, whether there are
      more than one page of them, and the schedules, which are fetched separately. */
  datatype View = View(page: bool, current: seq<P.Subscription>, schedules: map<nat, P.Schedule>)

  /** The stored response: no subscription, more than one, or the response for subscription `id`. */
  datatype Snapshot = Nothing | Uncertain | Shows(id: string, managed: P.Managed)

  function FindSub(subs: seq<P.Subscription>, id: string): Option<P.Subscription> {
    if subs == [] then None
    else if subs[0].id == id then Some(subs[0])
    else FindSub(subs[1..], id)
  }

  /** The response for `sub`, whose schedule is fetched from a later view; None when that fails. */
  function Answer(cfg: P.Config, sub: P.Subscription, detail: View): Option<Snapshot> {
    match sub.schedule
    case None => Some(Shows(sub.id, P.Respond(cfg, sub, None)))
    case Some(sid) =>
      if sid !in detail.schedules then None
      else Some(Shows(sub.id, P.Respond(cfg, sub, Some(detail.schedules[sid]))))
  }

  /** The snapshot shows `sub`: its identity, plan, status, currency, period, cancellation, schedule and payment due. */
  predicate ShowsAs(cfg: P.Config, sub: P.Subscription, x: Snapshot) {
    x.Shows? && x.id == sub.id &&
    var plan := if |sub.items| == 1 && sub.items[0].price in cfg.known then cfg.known[sub.items[0].price] else P.Unknown;
    var v := x.managed.version;
    && x.managed.plan == plan
    && v == P.Version(sub.id, plan, sub.currency, sub.status, if |sub.items| == 1 then Some(sub.periodEnd) else None,
                      sub.cancel, sub.schedule, v.future, sub.pendingUpdate)
  }

  /** The snapshot made of one listing and one later detail read; None when a read fails. */
  function Shown(cfg: P.Config, list: View, detail: View): Option<Snapshot> {
    if list.page then None
    else if |list.current| > 1 then Some(Uncertain)
    else if list.current == [] then Some(Nothing)
    else Answer(cfg, list.current[0], detail)
  }

  /** A sync lists everything; a plan change reads its own subscription again. */
  datatype What = All | One(id: string)

  function Seen(cfg: P.Config, list: View, what: What, detail: View): Option<Snapshot> {
    match what
    case All => Shown(cfg, list, detail)
    case One(id) =>
      match FindSub(list.current, id)
      case None => None
      case Some(sub) => Answer(cfg, sub, detail)
  }

  /** The locked row, with the two columns a refresh writes together. */
  class LockedRow {
    var customer: bool
    var subscriptionId: Option<string>
    var snapshot: Option<Snapshot>

    constructor (customer: bool)
      ensures this.customer == customer && subscriptionId == None && snapshot == None
    {
      this.customer := customer;
      subscriptionId, snapshot := None, None;
    }

    /** `sync_subscription` while holding the lock; None when the provider could not answer.  An incomplete page fails,
        an empty one shows nothing, several subscriptions are uncertain, and a single one is shown as it is. */
    method Sync(cfg: P.Config, list: View, detail: View, onlyMissing: bool) returns (r: Option<Snapshot>)
      modifies this`subscriptionId, this`snapshot
      ensures !customer ==> r == Some(Nothing)
      ensures customer && onlyMissing && old(snapshot).Some? ==> r == old(snapshot)
      ensures customer && !(onlyMissing && old(snapshot).Some?) ==> r == Shown(cfg, list, detail)
      ensures if customer && !(onlyMissing && old(snapshot).Some?) && r.Some?
              then snapshot == r && subscriptionId == (if r.value.Shows? then Some(r.value.id) else None)
              else snapshot == old(snapshot) && subscriptionId == old(subscriptionId)
      ensures customer && !(onlyMissing && old(snapshot).Some?) ==>
                && (list.page ==> r == None)
                && (!list.page && list.current == [] ==> r == Some(Nothing))
                && (!list.page && |list.current| > 1 ==> r == Some(Uncertain))
                && (!list.page && |list.current| == 1 ==>
                      var sub := list.current[0];
                      if sub.schedule.Some? && sub.schedule.value !in detail.schedules then r == None
                      else r.Some? && ShowsAs(cfg, sub, r.value))
    {
      if !customer {
        return Some(Nothing);
      }
      if onlyMissing && snapshot.Some? {
        return snapshot;
      }
      if list.page {
        return None;
      }
      if |list.current| > 1 {
        snapshot, subscriptionId := Some(Uncertain), None;
      } else if |list.current| == 0 {
        snapshot, subscriptionId := Some(Nothing), None;
      } else {
        var answer := Answer(cfg, list.current[0], detail);
        if answer.None? {
          return None;
        }
        snapshot, subscriptionId := answer, Some(list.current[0].id);
      }
      return snapshot;
    }
  }

  // ---------------------------------------------------------------- the whole system

  /** A stored snapshot and the two versions of provider history it was read from. */
  datatype Stored = Stored(list: nat, what: What, detail: nat, snapshot: Snapshot)

  /** `Listed` has read one version of history and still has to fetch the schedule; `Accepted` is a plan
      change that has passed every check, `plan` being the plan it found. */
  datatype Worker =
    | Idle
    | Locked(onlyMissing: bool)
    | Listed(list: nat, what: What)
    | Considering(list: nat, form: P.Form)
    | Accepted(list: nat, form: P.Form, plan: P.Plan)
    | Read(stored: Stored)

  /** The keyed call: which subscription, for which request. */
  datatype Key = Key(id: string, request: string)

  datatype Record = Record(price: string, version: nat)

  /** `history` holds every view the provider ever had; the last one is current. */
  datatype State = State(
    history: seq<View>,
    answers: map<Key, Record>,
    row: Option<Stored>,
    holder: Option<nat>,
    workers: seq<Worker>)

  /** How the provider takes an upgrade it has not seen before. */
  datatype Taken = Paid(end: nat) | Unpaid(lapse: nat) | Declined

  datatype Event =
    | Change(view: View)
    | Forget(key: Key)
    | Start
    | Acquire(w: nat, onlyMissing: bool)
    | Skip(w: nat)
    | List(w: nat)
    | Consider(w: nat, form: P.Form)
    | Decide(w: nat, resumed: bool, now: nat)
    | Upgrade(w: nat, taken: Taken)
    | Retrieve(w: nat)
    | Detail(w: nat)
    | Commit(w: nat)
    | Drop(w: nat)

  function Initial(view: View): State {
    State([view], map[], None, None, [])
  }

  function To(s: State, w: nat, p: Worker): State
    requires w < |s.workers|
  {
    s.(workers := s.workers[w := p])
  }

  function Release(s: State, w: nat): State
    requires w < |s.workers|
  {
    To(s, w, Idle).(holder := None)
  }

  predicate Holds(s: State, w: nat) {
    w < |s.workers| && s.holder == Some(w)
  }

  function Last(s: State): View
    requires s.history != []
  {
    s.history[|s.history| - 1]
  }

  predicate Single(s: State, list: nat) {
    list < |s.history| && !s.history[list].page && |s.history[list].current| == 1
  }

  /** What a plan change decides on: the listing it made, with the schedule as it reads now.  Whether the
      provider confirms a half-made schedule as this request's own is left open in `resumed`. */
  function Judged(cfg: P.Config, s: State, list: nat, resumed: bool): Option<P.Managed>
    requires Single(s, list)
  {
    var sub := s.history[list].current[0];
    if resumed then Some(P.Respond(cfg, sub.(schedule := None), None))
    else
      match Answer(cfg, sub, Last(s))
      case None => None
      case Some(x) => Some(x.managed)
  }

  function DoDecide(cfg: P.Config, s: State, w: nat, resumed: bool, now: nat): State
    requires w < |s.workers| && s.workers[w].Considering? && Single(s, s.workers[w].list)
  {
    var Considering(list, form) := s.workers[w];
    var sub := s.history[list].current[0];
    match Judged(cfg, s, list, resumed)
    case None => Release(s, w)
    case Some(current) =>
      if !current.canManage || current.version != form.expected || (P.Paid(form.plan) && sub.periodEnd <= now + 60)
         || sub.customer != cfg.customer then Release(s, w)
      else To(s, w, Accepted(list, form, current.plan))
  }

  /** An accepted request for a Pro plan from a plan that is not. */
  predicate Upgrading(cfg: P.Config, s: State, w: nat) {
    && w < |s.workers| && s.workers[w].Accepted? && Single(s, s.workers[w].list)
    && P.Pro(s.workers[w].form.plan) && !P.Pro(s.workers[w].plan)
    && (s.workers[w].form.plan, s.history[s.workers[w].list].current[0].currency) in cfg.offered
  }

  function UpgradeKey(s: State, w: nat): Key
    requires w < |s.workers| && s.workers[w].Accepted? && Single(s, s.workers[w].list)
  {
    Key(s.history[s.workers[w].list].current[0].id, s.workers[w].form.request)
  }

  function UpgradePrice(cfg: P.Config, s: State, w: nat): string
    requires Upgrading(cfg, s, w)
  {
    cfg.offered[(s.workers[w].form.plan, s.history[s.workers[w].list].current[0].currency)]
  }

  function Taking(sub: P.Subscription, price: string, taken: Taken): P.Subscription
    requires !taken.Declined?
  {
    match taken
    case Paid(end) => sub.(items := [P.Item(price, 1)], periodEnd := end, cancel := false)
    case Unpaid(lapse) => sub.(pendingUpdate := Some(lapse))
  }

  function ReplaceSub(subs: seq<P.Subscription>, id: string, by': P.Subscription): seq<P.Subscription> {
    if subs == [] then []
    else if subs[0].id == id then [by'] + subs[1..]
    else [subs[0]] + ReplaceSub(subs[1..], id, by')
  }

  /** The upgrade call: answered from the record, rejected for other parameters, or carried out. */
  function DoUpgrade(cfg: P.Config, s: State, w: nat, taken: Taken): State
    requires Upgrading(cfg, s, w)
  {
    var key, price := UpgradeKey(s, w), UpgradePrice(cfg, s, w);
    if key in s.answers then
      if s.answers[key].price == price then To(s, w, Listed(s.answers[key].version, One(key.id))) else Release(s, w)
    else
      match FindSub(Last(s).current, key.id)
      case None => Release(s, w)
      case Some(sub) =>
        if taken.Declined? then Release(s, w)
        else
          var view := Last(s).(current := ReplaceSub(Last(s).current, key.id, Taking(sub, price, taken)));
          To(s.(history := s.history + [view], answers := s.answers[key := Record(price, |s.history|)]),
             w, Listed(|s.history|, One(key.id)))
  }

  function DoDetail(cfg: P.Config, s: State, w: nat): State
    requires w < |s.workers| && s.workers[w].Listed? && s.workers[w].list < |s.history|
  {
    var Listed(list, what) := s.workers[w];
    match Seen(cfg, s.history[list], what, Last(s))
    case None => Release(s, w)
    case Some(x) => To(s, w, Read(Stored(list, what, |s.history| - 1, x)))
  }

  /** One atomic step; an event that does not fit the state changes nothing. */
  function Step(cfg: P.Config, s: State, e: Event): State {
    match e
    case Change(view) => s.(history := s.history + [view])
    case Forget(key) => s.(answers := s.answers - {key})
    case Start => s.(workers := s.workers + [Idle])
    case Acquire(w, onlyMissing) =>
      if w < |s.workers| && s.workers[w].Idle? && s.holder.None?
      then To(s, w, Locked(onlyMissing)).(holder := Some(w)) else s
    case Skip(w) =>
      if Holds(s, w) && s.workers[w].Locked? && s.workers[w].onlyMissing && s.row.Some? then Release(s, w) else s
    case List(w) =>
      if Holds(s, w) && s.workers[w].Locked? && !(s.workers[w].onlyMissing && s.row.Some?) && s.history != []
      then To(s, w, Listed(|s.history| - 1, All)) else s
    case Consider(w, form) =>
      if !Holds(s, w) || !s.workers[w].Locked? || s.history == [] then s
      else if Single(s, |s.history| - 1) then To(s, w, Considering(|s.history| - 1, form)) else Release(s, w)
    case Decide(w, resumed, now) =>
      if Holds(s, w) && s.workers[w].Considering? && Single(s, s.workers[w].list)
      then DoDecide(cfg, s, w, resumed, now) else s
    case Upgrade(w, taken) => if Holds(s, w) && Upgrading(cfg, s, w) then DoUpgrade(cfg, s, w, taken) else s
    // The other calls of a plan change show as changes of the provider before this.
    case Retrieve(w) =>
      if Holds(s, w) && s.workers[w].Accepted? && !Upgrading(cfg, s, w) && Single(s, s.workers[w].list)
      then To(s, w, Listed(|s.history| - 1, One(s.history[s.workers[w].list].current[0].id))) else s
    case Detail(w) =>
      if Holds(s, w) && s.workers[w].Listed? && s.workers[w].list < |s.history| then DoDetail(cfg, s, w) else s
    case Commit(w) =>
      if Holds(s, w) && s.workers[w].Read? then Release(s, w).(row := Some(s.workers[w].stored)) else s
    case Drop(w) => if Holds(s, w) then Release(s, w) else s
  }

  function Run(cfg: P.Config, s: State, es: seq<Event>): State
    decreases |es|
  {
    if es == [] then s else Run(cfg, Step(cfg, s, es[0]), es[1..])
  }

  // ---------------------------------------------------------------- the invariant

  /** Every price on sale is known for the plan it is sold as. */
  ghost predicate Consistent(cfg: P.Config) {
    forall k | k in cfg.offered :: P.PlanOf(cfg, cfg.offered[k]) == k.0
  }

  /** Already on a Pro plan, or with a change to one waiting for its payment. */
  predicate Upgraded(cfg: P.Config, sub: P.Subscription) {
    sub.pendingUpdate.Some? || (|sub.items| == 1 && P.Pro(P.PlanOf(cfg, sub.items[0].price)))
  }

  ghost predicate Genuine(cfg: P.Config, s: State, x: Stored) {
    x.list <= x.detail < |s.history| && Some(x.snapshot) == Seen(cfg, s.history[x.list], x.what, s.history[x.detail])
  }

  /** The recorded answer to an upgrade shows the subscription upgraded. */
  ghost predicate RecordInv(cfg: P.Config, s: State, key: Key)
    requires key in s.answers
  {
    && s.answers[key].version < |s.history|
    && var x := FindSub(s.history[s.answers[key].version].current, key.id);
       x.Some? && Upgraded(cfg, x.value)
  }

  /** Nothing was put on record after version `list`. */
  ghost predicate RecordedBy(s: State, list: nat) {
    forall k | k in s.answers :: s.answers[k].version <= list
  }

  ghost predicate WorkerInv(cfg: P.Config, s: State, w: nat, p: Worker) {
    match p
    case Idle => true
    case Locked(_) => s.holder == Some(w)
    case Listed(list, _) => s.holder == Some(w) && list < |s.history|
    case Considering(list, _) => s.holder == Some(w) && Single(s, list) && RecordedBy(s, list)
    case Accepted(list, _, plan) =>
      && s.holder == Some(w) && Single(s, list) && RecordedBy(s, list)
      && (!P.Pro(plan) ==> !Upgraded(cfg, s.history[list].current[0]))
    case Read(x) => s.holder == Some(w) && Genuine(cfg, s, x)
  }

  /** Only the lock holder is under way. */
  ghost predicate Inv(cfg: P.Config, s: State) {
    && s.history != []
    && (s.row.Some? ==> Genuine(cfg, s, s.row.value))
    && (forall k | k in s.answers :: RecordInv(cfg, s, k))
    && (forall w | 0 <= w < |s.workers| :: WorkerInv(cfg, s, w, s.workers[w]))
  }

  /** A step by the holder `w` alone that leaves history and record as they are. */
  lemma HolderStepKeeps(cfg: P.Config, s: State, w: nat, t: State)
    requires Inv(cfg, s) && Holds(s, w) && |t.workers| == |s.workers| && t.history == s.history && t.answers == s.answers
    requires forall v | 0 <= v < |s.workers| && v != w :: t.workers[v] == s.workers[v]
    requires WorkerInv(cfg, t, w, t.workers[w]) && (t.row.Some? ==> Genuine(cfg, t, t.row.value))
    ensures Inv(cfg, t)
  {
    forall v | 0 <= v < |t.workers| ensures WorkerInv(cfg, t, v, t.workers[v]) {
      assert WorkerInv(cfg, s, v, s.workers[v]);
    }
    forall k | k in t.answers ensures RecordInv(cfg, t, k) {
      assert RecordInv(cfg, s, k);
    }
  }

  lemma MoveKeeps(cfg: P.Config, s: State, w: nat, p: Worker)
    requires Inv(cfg, s) && Holds(s, w) && WorkerInv(cfg, s, w, p)
    ensures Inv(cfg, To(s, w, p))
  {
    hide Seen, Upgraded;
    HolderStepKeeps(cfg, s, w, To(s, w, p));
  }

  lemma ReleaseKeeps(cfg: P.Config, s: State, w: nat)
    requires Inv(cfg, s) && Holds(s, w)
    ensures Inv(cfg, Release(s, w))
  {
    hide Seen, Upgraded;
    HolderStepKeeps(cfg, s, w, Release(s, w));
  }

  /** History goes on, the record at most forgets: everybody keeps what they have read. */
  lemma HistoryGrows(cfg: P.Config, s: State, t: State)
    requires Inv(cfg, s) && s.history <= t.history && t.row == s.row && t.holder == s.holder
    requires |s.workers| <= |t.workers|
    requires forall w | 0 <= w < |t.workers| :: if w < |s.workers| then t.workers[w] == s.workers[w] else t.workers[w].Idle?
    requires forall k | k in t.answers :: k in s.answers && t.answers[k] == s.answers[k]
    ensures Inv(cfg, t)
  {
    forall w | 0 <= w < |t.workers| ensures WorkerInv(cfg, t, w, t.workers[w]) {
      if w < |s.workers| { assert WorkerInv(cfg, s, w, s.workers[w]); }
    }
    forall k | k in t.answers ensures RecordInv(cfg, t, k) {
      assert RecordInv(cfg, s, k);
    }
  }

  /** Whoever may be managed has nothing waiting for payment, on the plan that is shown. */
  lemma ManagedIsNotUpgraded(cfg: P.Config, sub: P.Subscription, schedule: Option<P.Schedule>)
    requires P.Respond(cfg, sub, schedule).canManage && !P.Pro(P.Respond(cfg, sub, schedule).plan)
    ensures !Upgraded(cfg, sub)
  {
  }

  lemma JudgedIsNotUpgraded(cfg: P.Config, s: State, list: nat, resumed: bool)
    requires s.history != [] && Single(s, list) && Judged(cfg, s, list, resumed).Some?
    requires var current := Judged(cfg, s, list, resumed).value; current.canManage && !P.Pro(current.plan)
    ensures !Upgraded(cfg, s.history[list].current[0])
  {
    hide P.Respond, Upgraded;
    var sub := s.history[list].current[0];
    if resumed {
      ManagedIsNotUpgraded(cfg, sub.(schedule := None), None);
      UpgradedWithout(cfg, sub);
    } else if sub.schedule.None? {
      ManagedIsNotUpgraded(cfg, sub, None);
    } else {
      ManagedIsNotUpgraded(cfg, sub, Some(Last(s).schedules[sub.schedule.value]));
    }
  }

  lemma UpgradedWithout(cfg: P.Config, sub: P.Subscription)
    ensures Upgraded(cfg, sub.(schedule := None)) == Upgraded(cfg, sub)
  {
  }

  lemma DecideKeeps(cfg: P.Config, s: State, w: nat, resumed: bool, now: nat)
    requires Inv(cfg, s) && Holds(s, w) && s.workers[w].Considering?
    ensures Inv(cfg, Step(cfg, s, Decide(w, resumed, now)))
  {
    assert WorkerInv(cfg, s, w, s.workers[w]) && s.history != [];
    var list, t := s.workers[w].list, DoDecide(cfg, s, w, resumed, now);
    if t.workers[w].Accepted? {
      var current := Judged(cfg, s, list, resumed).value;
      if !P.Pro(current.plan) { JudgedIsNotUpgraded(cfg, s, list, resumed); }
      assert WorkerInv(cfg, s, w, t.workers[w]);
    }
    hide Inv, WorkerInv, Judged;
    if t.workers[w].Accepted? { MoveKeeps(cfg, s, w, t.workers[w]); } else { ReleaseKeeps(cfg, s, w); }
  }

  lemma {:induction false} FindReplaced(subs: seq<P.Subscription>, id: string, by': P.Subscription)
    requires FindSub(subs, id).Some? && by'.id == id
    ensures FindSub(ReplaceSub(subs, id, by'), id) == Some(by')
    decreases |subs|
  {
    if subs[0].id != id { FindReplaced(subs[1..], id, by'); }
  }

  lemma {:induction false} FoundHasId(subs: seq<P.Subscription>, id: string)
    requires FindSub(subs, id).Some?
    ensures FindSub(subs, id).value.id == id
    decreases |subs|
  {
    if subs[0].id != id { FoundHasId(subs[1..], id); }
  }

  lemma TakingUpgrades(cfg: P.Config, sub: P.Subscription, price: string, taken: Taken)
    requires !taken.Declined? && P.Pro(P.PlanOf(cfg, price))
    ensures Upgraded(cfg, Taking(sub, price, taken)) && Taking(sub, price, taken).id == sub.id
  {
  }

  /** The state after an upgrade that the provider carries out. */
  lemma NewUpgradeKeeps(cfg: P.Config, s: State, w: nat, taken: Taken)
    requires Inv(cfg, s) && Consistent(cfg) && Holds(s, w) && Upgrading(cfg, s, w) && !taken.Declined?
    requires UpgradeKey(s, w) !in s.answers && FindSub(Last(s).current, UpgradeKey(s, w).id).Some?
    ensures Inv(cfg, DoUpgrade(cfg, s, w, taken))
  {
    var t := DoUpgrade(cfg, s, w, taken);
    var key, price := UpgradeKey(s, w), UpgradePrice(cfg, s, w);
    var sub := FindSub(Last(s).current, key.id).value;
    FoundHasId(Last(s).current, key.id);
    TakingUpgrades(cfg, sub, price, taken);
    FindReplaced(Last(s).current, key.id, Taking(sub, price, taken));
    hide FindSub, ReplaceSub, Taking, Upgraded, Seen;
    forall v | 0 <= v < |t.workers| ensures WorkerInv(cfg, t, v, t.workers[v]) {
      assert WorkerInv(cfg, s, v, s.workers[v]);
    }
    forall k | k in t.answers ensures RecordInv(cfg, t, k) {
      if k != key { assert RecordInv(cfg, s, k); }
    }
  }

  lemma UpgradeKeeps(cfg: P.Config, s: State, w: nat, taken: Taken)
    requires Inv(cfg, s) && Consistent(cfg) && Holds(s, w) && Upgrading(cfg, s, w)
    ensures Inv(cfg, DoUpgrade(cfg, s, w, taken))
  {
    var key := UpgradeKey(s, w);
    assert s.history != [];
    if key in s.answers { assert RecordInv(cfg, s, key); }
    hide Inv, Consistent, FindSub, ReplaceSub, Taking;
    if key in s.answers {
      if s.answers[key].price == UpgradePrice(cfg, s, w) {
        MoveKeeps(cfg, s, w, Listed(s.answers[key].version, One(key.id)));
      } else {
        ReleaseKeeps(cfg, s, w);
      }
    } else if FindSub(Last(s).current, key.id).Some? && !taken.Declined? {
      NewUpgradeKeeps(cfg, s, w, taken);
    } else {
      ReleaseKeeps(cfg, s, w);
    }
  }

  lemma AcquireKeeps(cfg: P.Config, s: State, w: nat, onlyMissing: bool)
    requires Inv(cfg, s)
    ensures Inv(cfg, Step(cfg, s, Acquire(w, onlyMissing)))
  {
    var t := Step(cfg, s, Acquire(w, onlyMissing));
    forall v | 0 <= v < |t.workers| ensures WorkerInv(cfg, t, v, t.workers[v]) {
      assert WorkerInv(cfg, s, v, s.workers[v]);
    }
    forall k | k in t.answers ensures RecordInv(cfg, t, k) { assert RecordInv(cfg, s, k); }
  }

  lemma VersionsAreOld(cfg: P.Config, s: State)
    requires Inv(cfg, s)
    ensures s.history != [] && RecordedBy(s, |s.history| - 1)
  {
    forall k | k in s.answers ensures s.answers[k].version < |s.history| { assert RecordInv(cfg, s, k); }
  }

  lemma DetailKeeps(cfg: P.Config, s: State, w: nat)
    requires Inv(cfg, s) && Holds(s, w) && s.workers[w].Listed?
    ensures Inv(cfg, Step(cfg, s, Detail(w)))
  {
    assert s.history != [] && WorkerInv(cfg, s, w, s.workers[w]);
    var Listed(list, what) := s.workers[w];
    hide Inv, Seen;
    match Seen(cfg, s.history[list], what, Last(s))
    case None => ReleaseKeeps(cfg, s, w);
    case Some(x) => MoveKeeps(cfg, s, w, Read(Stored(list, what, |s.history| - 1, x)));
  }

  lemma CommitKeeps(cfg: P.Config, s: State, w: nat)
    requires Inv(cfg, s) && Holds(s, w) && s.workers[w].Read?
    ensures Inv(cfg, Step(cfg, s, Commit(w)))
  {
    hide Seen, Upgraded;
    assert WorkerInv(cfg, s, w, s.workers[w]);
    HolderStepKeeps(cfg, s, w, Step(cfg, s, Commit(w)));
  }

  /** Reading the last version, or letting go. */
  lemma ListKeeps(cfg: P.Config, s: State, e: Event)
    requires Inv(cfg, s) && (e.Skip? || e.List? || e.Consider? || e.Retrieve? || e.Drop?)
    ensures Inv(cfg, Step(cfg, s, e))
  {
    VersionsAreOld(cfg, s);
    if Holds(s, e.w) {
      hide Inv;
      ReleaseKeeps(cfg, s, e.w);
      var t := Step(cfg, s, e);
      if t != s && t != Release(s, e.w) { MoveKeeps(cfg, s, e.w, t.workers[e.w]); }
    }
  }

  lemma StepKeeps(cfg: P.Config, s: State, e: Event)
    requires Inv(cfg, s) && Consistent(cfg)
    ensures Inv(cfg, Step(cfg, s, e))
  {
    hide Inv, DoDecide, DoUpgrade, DoDetail, Consistent;
    match e
    case Change(_) => HistoryGrows(cfg, s, Step(cfg, s, e));
    case Forget(_) => HistoryGrows(cfg, s, Step(cfg, s, e));
    case Start => HistoryGrows(cfg, s, Step(cfg, s, e));
    case Acquire(w, onlyMissing) => AcquireKeeps(cfg, s, w, onlyMissing);
    case Decide(w, resumed, now) => if Holds(s, w) && s.workers[w].Considering? { DecideKeeps(cfg, s, w, resumed, now); }
    case Upgrade(w, taken) => if Holds(s, w) && Upgrading(cfg, s, w) { UpgradeKeeps(cfg, s, w, taken); }
    case Detail(w) => if Holds(s, w) && s.workers[w].Listed? { DetailKeeps(cfg, s, w); }
    case Commit(w) => if Holds(s, w) && s.workers[w].Read? { CommitKeeps(cfg, s, w); }
    case _ => ListKeeps(cfg, s, e);
  }

  lemma {:induction false} RunKeeps(cfg: P.Config, s: State, es: seq<Event>)
    requires Inv(cfg, s) && Consistent(cfg)
    ensures Inv(cfg, Run(cfg, s, es))
    decreases |es|
  {
    if es != [] {
      StepKeeps(cfg, s, es[0]);
      RunKeeps(cfg, Step(cfg, s, es[0]), es[1..]);
    }
  }

  // ---------------------------------------------------------------- never going back

  /** The upgrade call of `e`, if it is one, uses a key the provider does not have on record. */
  predicate NewKey(cfg: P.Config, s: State, e: Event) {
    e.Upgrade? && Holds(s, e.w) && Upgrading(cfg, s, e.w) ==> UpgradeKey(s, e.w) !in s.answers
  }

  predicate NewKeys(cfg: P.Config, s: State, es: seq<Event>)
    decreases |es|
  {
    es == [] || (NewKey(cfg, s, es[0]) && NewKeys(cfg, Step(cfg, s, es[0]), es[1..]))
  }

  /** No read of a refresh under way is older than what is stored. */
  ghost predicate NotOlder(s: State, list: nat) {
    s.row.Some? ==> s.row.value.detail <= list
  }

  ghost predicate Recent(s: State) {
    forall w | 0 <= w < |s.workers| ::
      && (s.workers[w].Listed? ==> NotOlder(s, s.workers[w].list))
      && (s.workers[w].Read? ==> NotOlder(s, s.workers[w].stored.list))
  }

  ghost predicate Onward(a: Option<Stored>, b: Option<Stored>) {
    a.None? || b == a || (b.Some? && a.value.list <= a.value.detail <= b.value.list)
  }

  /** What is under way was read from the current view. */
  ghost predicate UpToDate(s: State) {
    forall w | 0 <= w < |s.workers| ::
      && (s.workers[w].Listed? ==> s.workers[w].list == |s.history| - 1)
      && (s.workers[w].Read? ==> s.workers[w].stored.list == |s.history| - 1)
  }

  lemma OthersIdle(cfg: P.Config, s: State, h: nat)
    requires Inv(cfg, s) && s.holder == Some(h)
    ensures forall w | 0 <= w < |s.workers| && w != h :: s.workers[w].Idle?
  {
    forall w | 0 <= w < |s.workers| && w != h ensures s.workers[w].Idle? {
      assert WorkerInv(cfg, s, w, s.workers[w]);
    }
  }

  lemma CommitStaysRecent(cfg: P.Config, s: State, w: nat)
    requires Inv(cfg, s) && Recent(s) && Holds(s, w) && s.workers[w].Read?
    ensures var t := Step(cfg, s, Commit(w));
            Recent(t) && Onward(s.row, t.row) && UpToDate(t) && t.history == s.history
  {
    assert WorkerInv(cfg, s, w, s.workers[w]);
    OthersIdle(cfg, s, w);
    if s.row.Some? { assert Genuine(cfg, s, s.row.value); }
  }

  /** Nothing but the listing of the holder changes, and a new listing is of the last version. */
  lemma StepStaysRecent(cfg: P.Config, s: State, e: Event)
    requires Inv(cfg, s) && Recent(s) && NewKey(cfg, s, e)
    ensures Recent(Step(cfg, s, e)) && Onward(s.row, Step(cfg, s, e).row)
  {
    hide Seen, Answer, Shown, FindSub, ReplaceSub, Taking, Upgraded, P.Respond;
    if s.row.Some? { assert Genuine(cfg, s, s.row.value); }
    if e.Commit? {
      if Holds(s, e.w) && s.workers[e.w].Read? { CommitStaysRecent(cfg, s, e.w); }
    } else {
      assert Step(cfg, s, e).row == s.row;
    }
  }

  /** However syncs, plan changes and provider changes interleave, a stored snapshot is replaced only by one
      whose every read came later in provider history, as long as no upgrade call reuses a key on record. */
  lemma {:induction false} NeverGoesBack(cfg: P.Config, s: State, es: seq<Event>)
    requires Consistent(cfg) && Inv(cfg, s) && Recent(s) && NewKeys(cfg, s, es)
    ensures var t := Run(cfg, s, es);
            Inv(cfg, t) && Recent(t) && Onward(s.row, t.row)
    decreases |es|
  {
    hide Step, NewKey, Recent;
    if es != [] {
      StepKeeps(cfg, s, es[0]);
      StepStaysRecent(cfg, s, es[0]);
      var s' := Step(cfg, s, es[0]);
      NeverGoesBack(cfg, s', es[1..]);
      if s'.row.Some? { assert Genuine(cfg, s', s'.row.value); }
    }
  }

  lemma FromTheStart(cfg: P.Config, view: View, before: seq<Event>, after: seq<Event>)
    requires Consistent(cfg) && NewKeys(cfg, Initial(view), before) && NewKeys(cfg, Run(cfg, Initial(view), before), after)
    ensures var s := Run(cfg, Initial(view), before); Onward(s.row, Run(cfg, s, after).row)
  {
    NeverGoesBack(cfg, Initial(view), before);
    NeverGoesBack(cfg, Run(cfg, Initial(view), before), after);
  }

  // ---------------------------------------------------------------- exactly when an upgrade stores an old answer

  /** An upgrade call that is answered is answered with a version older than the current one exactly when its
      key is on record, in every interleaving. */
  lemma AnswerIsOldIffOnRecord(cfg: P.Config, view: View, es: seq<Event>, w: nat, taken: Taken)
    requires Consistent(cfg)
    requires var s := Run(cfg, Initial(view), es);
             Holds(s, w) && Upgrading(cfg, s, w) && Step(cfg, s, Upgrade(w, taken)).workers[w].Listed?
    ensures var s := Run(cfg, Initial(view), es); var t := Step(cfg, s, Upgrade(w, taken));
            t.workers[w].list < |t.history| - 1 <==> UpgradeKey(s, w) in s.answers
  {
    RunKeeps(cfg, Initial(view), es);
    var s := Run(cfg, Initial(view), es);
    if UpgradeKey(s, w) in s.answers { OnRecordIsOld(cfg, s, w); }
  }

  /** A request is accepted on a subscription that is not upgraded; the recorded answer shows one that is. */
  lemma OnRecordIsOld(cfg: P.Config, s: State, w: nat)
    requires Inv(cfg, s) && Holds(s, w) && Upgrading(cfg, s, w) && UpgradeKey(s, w) in s.answers
    ensures s.answers[UpgradeKey(s, w)].version < |s.history| - 1
  {
    var key, list := UpgradeKey(s, w), s.workers[w].list;
    assert WorkerInv(cfg, s, w, s.workers[w]);
    assert RecordInv(cfg, s, key);
    assert FindSub(s.history[list].current, key.id) == Some(s.history[list].current[0]);
  }

  /** The upgrade call and the reading of its answer, with nobody in between. */
  function UpgradeAndRead(cfg: P.Config, s: State, w: nat, taken: Taken): State {
    Step(cfg, Step(cfg, s, Upgrade(w, taken)), Detail(w))
  }

  predicate Reads(cfg: P.Config, s: State, w: nat, taken: Taken) {
    var t := UpgradeAndRead(cfg, s, w, taken);
    t.history != [] && w < |t.workers| && t.workers[w].Read?
  }

  /** What the request then stores, when the provider has not changed since its listing: something else than
      the provider now shows exactly when the key is on record. */
  lemma StoresOtherIffOnRecord(cfg: P.Config, view: View, es: seq<Event>, w: nat, taken: Taken)
    requires Consistent(cfg)
    requires var s := Run(cfg, Initial(view), es);
             && Holds(s, w) && Upgrading(cfg, s, w) && s.workers[w].list == |s.history| - 1
             && Reads(cfg, s, w, taken)
    ensures var s := Run(cfg, Initial(view), es); var key := UpgradeKey(s, w);
            var t := UpgradeAndRead(cfg, s, w, taken);
            Some(t.workers[w].stored.snapshot) != Seen(cfg, Last(t), One(key.id), Last(t)) <==> key in s.answers
  {
    RunKeeps(cfg, Initial(view), es);
    var s := Run(cfg, Initial(view), es);
    StoredDiffers(cfg, s, w, taken);
  }

  /** What the worker reads after an upgrade call that was answered. */
  lemma ReadAfterReplay(cfg: P.Config, s: State, w: nat, taken: Taken)
    requires Holds(s, w) && Upgrading(cfg, s, w) && UpgradeKey(s, w) in s.answers && Reads(cfg, s, w, taken)
    requires s.answers[UpgradeKey(s, w)].version < |s.history|
    ensures var key := UpgradeKey(s, w); var t := UpgradeAndRead(cfg, s, w, taken);
            && t.history == s.history
            && Some(t.workers[w].stored.snapshot) == Seen(cfg, s.history[s.answers[key].version], One(key.id), Last(t))
  {
    hide Seen;
  }

  lemma ReadAfterCall(cfg: P.Config, s: State, w: nat, taken: Taken)
    requires Holds(s, w) && Upgrading(cfg, s, w) && UpgradeKey(s, w) !in s.answers && Reads(cfg, s, w, taken)
    requires s.history != []
    ensures var t := UpgradeAndRead(cfg, s, w, taken);
            Some(t.workers[w].stored.snapshot) == Seen(cfg, Last(t), One(UpgradeKey(s, w).id), Last(t))
  {
    hide Seen, FindSub, ReplaceSub, Taking;
  }

  lemma StoredDiffers(cfg: P.Config, s: State, w: nat, taken: Taken)
    requires Inv(cfg, s) && Holds(s, w) && Upgrading(cfg, s, w) && s.workers[w].list == |s.history| - 1
    requires Reads(cfg, s, w, taken)
    ensures var key := UpgradeKey(s, w); var t := UpgradeAndRead(cfg, s, w, taken);
            Some(t.workers[w].stored.snapshot) != Seen(cfg, Last(t), One(key.id), Last(t)) <==> key in s.answers
  {
    hide Step, Reads, UpgradeAndRead, P.Respond, Upgraded, Answer, ShowsUpgraded;
    var key := UpgradeKey(s, w);
    if key !in s.answers {
      ReadAfterCall(cfg, s, w, taken);
    } else {
      assert RecordInv(cfg, s, key);
      ReadAfterReplay(cfg, s, w, taken);
      assert RecordInv(cfg, s, key) && WorkerInv(cfg, s, w, s.workers[w]);
      var now := Last(s).current[0];
      var then' := FindSub(s.history[s.answers[key].version].current, key.id).value;
      assert FindSub(Last(s).current, key.id) == Some(now);
      if Answer(cfg, now, Last(s)).Some? { ShownUpgraded(cfg, now, Last(s)); }
      if Answer(cfg, then', Last(s)).Some? { ShownUpgraded(cfg, then', Last(s)); }
    }
  }

  /** Whether a subscription is upgraded can be read off its snapshot. */
  predicate ShowsUpgraded(x: Snapshot) {
    x.Shows? && (x.managed.version.lapse.Some? || P.Pro(x.managed.version.plan))
  }

  lemma ShownUpgraded(cfg: P.Config, sub: P.Subscription, detail: View)
    requires Answer(cfg, sub, detail).Some?
    ensures ShowsUpgraded(Answer(cfg, sub, detail).value) <==> Upgraded(cfg, sub)
  {
  }

  // ---------------------------------------------------------------- when the provider is quiet

  predicate Quiet(es: seq<Event>) {
    forall i | 0 <= i < |es| :: !es[i].Change? && !es[i].Upgrade?
  }

  /** `row` is what the provider shows now. */
  ghost predicate Current(cfg: P.Config, s: State, row: Option<Stored>) {
    s.history != [] && row.Some? && Some(row.value.snapshot) == Seen(cfg, Last(s), row.value.what, Last(s))
  }

  /** A decision reads nothing that is going to be stored. */
  lemma DecideReadsNothing(cfg: P.Config, s: State, w: nat, resumed: bool, now: nat)
    requires w < |s.workers|
    ensures var t := Step(cfg, s, Decide(w, resumed, now));
            && t.history == s.history && t.row == s.row && |t.workers| == |s.workers|
            && forall v | 0 <= v < |s.workers| :: t.workers[v] == s.workers[v] || t.workers[v].Idle? || t.workers[v].Accepted?
  {
    hide Judged;
  }

  lemma StepStaysUpToDate(cfg: P.Config, s: State, e: Event)
    requires Inv(cfg, s) && UpToDate(s) && !e.Change? && !e.Upgrade?
    ensures var t := Step(cfg, s, e);
            UpToDate(t) && t.history == s.history && (t.row == s.row || Current(cfg, s, t.row))
  {
    hide Seen, Answer, Shown, FindSub, P.Respond, Inv, Current, DoDecide;
    if e.Commit? {
      if Holds(s, e.w) && s.workers[e.w].Read? { CommitIsCurrent(cfg, s, e.w); }
    } else if e.Decide? {
      if e.w < |s.workers| { DecideReadsNothing(cfg, s, e.w, e.resumed, e.now); }
    } else {
      assert Step(cfg, s, e).row == s.row;
    }
  }

  lemma CommitIsCurrent(cfg: P.Config, s: State, w: nat)
    requires Inv(cfg, s) && UpToDate(s) && Holds(s, w) && s.workers[w].Read?
    ensures var t := Step(cfg, s, Commit(w));
            UpToDate(t) && t.history == s.history && Current(cfg, s, t.row)
  {
    hide Seen, Upgraded;
    assert WorkerInv(cfg, s, w, s.workers[w]);
  }

  lemma {:induction false} StaysUpToDate(cfg: P.Config, s: State, es: seq<Event>)
    requires Consistent(cfg) && Inv(cfg, s) && UpToDate(s) && Quiet(es)
    ensures var t := Run(cfg, s, es);
            t.history == s.history && (t.row == s.row || Current(cfg, s, t.row))
    decreases |es|
  {
    hide Step, UpToDate;
    if es != [] {
      StepKeeps(cfg, s, es[0]);
      StepStaysUpToDate(cfg, s, es[0]);
      StaysUpToDate(cfg, Step(cfg, s, es[0]), es[1..]);
    }
  }

  lemma {:induction false} QuietKeepsHistory(cfg: P.Config, s: State, es: seq<Event>)
    requires Quiet(es)
    ensures Run(cfg, s, es).history == s.history
    decreases |es|
  {
    if es != [] {
      assert Step(cfg, s, es[0]).history == s.history;
      QuietKeepsHistory(cfg, Step(cfg, s, es[0]), es[1..]);
    }
  }

  /** Once the provider is quiet, whoever acquires the lock afterwards, from whatever state, stores exactly
      what the provider shows; so does everybody after.  A sync that had listed before may still finish first. */
  lemma SettlesOnProviderState(cfg: P.Config, s: State, before: seq<Event>, w: nat, onlyMissing: bool, after: seq<Event>)
    requires Consistent(cfg) && Inv(cfg, s) && Quiet(before) && Quiet(after)
    requires var s1 := Run(cfg, s, before); w < |s1.workers| && s1.workers[w].Idle? && s1.holder.None?
    ensures var s1 := Run(cfg, s, before); var t := Run(cfg, Step(cfg, s1, Acquire(w, onlyMissing)), after);
            t.history == s.history && (t.row == s1.row || Current(cfg, s, t.row))
  {
    RunKeeps(cfg, s, before);
    QuietKeepsHistory(cfg, s, before);
    var s1 := Run(cfg, s, before);
    forall v | 0 <= v < |s1.workers| ensures s1.workers[v].Idle? { assert WorkerInv(cfg, s1, v, s1.workers[v]); }
    var s2 := Step(cfg, s1, Acquire(w, onlyMissing));
    StepKeeps(cfg, s1, Acquire(w, onlyMissing));
    StaysUpToDate(cfg, s2, after);
  }

  /** A sync nobody disturbs stores the provider's state whenever the provider can show it. */
  lemma UndisturbedSync(cfg: P.Config, s: State, w: nat)
    requires s.history != [] && w < |s.workers| && s.workers[w].Idle? && s.holder.None?
    requires Shown(cfg, Last(s), Last(s)).Some?
    ensures var t := Step(cfg, Step(cfg, Step(cfg, Step(cfg, s, Acquire(w, false)), List(w)), Detail(w)), Commit(w));
            t == s.(row := Some(Stored(|s.history| - 1, All, |s.history| - 1, Shown(cfg, Last(s), Last(s)).value)))
  {
    var last := |s.history| - 1;
    var s1 := Step(cfg, s, Acquire(w, false));
    assert s1 == To(s, w, Locked(false)).(holder := Some(w));
    var s2 := Step(cfg, s1, List(w));
    assert s2 == To(s, w, Listed(last, All)).(holder := Some(w));
    var s3 := Step(cfg, s2, Detail(w));
    assert s3 == To(s, w, Read(Stored(last, All, last, Shown(cfg, Last(s), Last(s)).value))).(holder := Some(w));
    assert Step(cfg, s3, Commit(w)).workers == s.workers;
  }

  /** The same by what the provider lists, and with the worker, the lock and everything else as before. */
  lemma SyncStores(cfg: P.Config, s: State, w: nat)
    requires s.history != [] && w < |s.workers| && s.workers[w].Idle? && s.holder.None?
    ensures var n := |s.history| - 1; var v := s.history[n];
            var t := Step(cfg, Step(cfg, Step(cfg, Step(cfg, s, Acquire(w, false)), List(w)), Detail(w)), Commit(w));
            && t == s.(row := t.row)
            && (v.page ==> t.row == s.row)
            && (!v.page && v.current == [] ==> t.row == Some(Stored(n, All, n, Nothing)))
            && (!v.page && |v.current| > 1 ==> t.row == Some(Stored(n, All, n, Uncertain)))
            && (!v.page && |v.current| == 1 ==>
                  var sub := v.current[0];
                  if sub.schedule.Some? && sub.schedule.value !in v.schedules then t.row == s.row
                  else t.row.Some? && t.row.value.list == t.row.value.detail == n && ShowsAs(cfg, sub, t.row.value.snapshot))
  {
    if Shown(cfg, Last(s), Last(s)).Some? {
      UndisturbedSync(cfg, s, w);
    } else {
      var s2 := Step(cfg, Step(cfg, s, Acquire(w, false)), List(w));
      assert s2 == To(s, w, Listed(|s.history| - 1, All)).(holder := Some(w));
      assert Step(cfg, s2, Detail(w)).workers == s.workers;
    }
  }

  /** A plan change goes on exactly when the subscription it listed may be changed, with its schedule as it reads now, is
      the customer's, reads as the request expects, and is more than a minute from the end of its period (ending and
      keeping have until the end). */
  lemma DecidesExactlyWhen(cfg: P.Config, s: State, w: nat, now: nat)
    requires s.history != [] && Holds(s, w) && s.workers[w].Considering? && Single(s, s.workers[w].list)
    ensures var sub := s.history[s.workers[w].list].current[0]; var form := s.workers[w].form;
            var readable := sub.schedule.None? || sub.schedule.value in Last(s).schedules;
            var schedule := if sub.schedule.Some? && readable then Some(Last(s).schedules[sub.schedule.value]) else None;
            Step(cfg, s, Decide(w, false, now)).workers[w].Accepted? <==>
            && readable && A.Changeable(cfg, sub) && (schedule.Some? ==> A.Ours(cfg, sub, schedule.value))
            && P.Respond(cfg, sub, schedule).version == form.expected && sub.customer == cfg.customer
            && (form.plan.Free? || form.plan.Keep? || sub.periodEnd > now + 60)
  {
    var sub := s.history[s.workers[w].list].current[0];
    A.ManageableExactlyWhen(cfg, sub, None);
    if sub.schedule.Some? && sub.schedule.value in Last(s).schedules {
      A.ManageableExactlyWhen(cfg, sub, Some(Last(s).schedules[sub.schedule.value]));
    }
    hide P.Respond, A.Changeable, A.Ours;
  }

  /** A plan change other than an upgrade stores its subscription as the provider shows it when its calls are made. */
  lemma OtherChangeStores(cfg: P.Config, s: State, w: nat)
    requires s.history != [] && Holds(s, w) && s.workers[w].Accepted? && Single(s, s.workers[w].list) && !Upgrading(cfg, s, w)
    ensures var id := s.history[s.workers[w].list].current[0].id; var found := FindSub(Last(s).current, id);
            var t := Step(cfg, Step(cfg, Step(cfg, s, Retrieve(w)), Detail(w)), Commit(w));
            found.Some? && (found.value.schedule.Some? ==> found.value.schedule.value in Last(s).schedules) ==>
              t.row.Some? && t.row.value.list == t.row.value.detail == |s.history| - 1 && t.holder == None
              && ShowsAs(cfg, found.value, t.row.value.snapshot)
  {
    var id := s.history[s.workers[w].list].current[0].id;
    hide P.Respond, FindSub;
    var s1 := Step(cfg, s, Retrieve(w));
    assert s1 == To(s, w, Listed(|s.history| - 1, One(id)));
    var found := FindSub(Last(s).current, id);
    if found.Some? && (found.value.schedule.Some? ==> found.value.schedule.value in Last(s).schedules) {
      AnswerShows(cfg, found.value, Last(s));
      var s2 := Step(cfg, s1, Detail(w));
      assert s2.workers[w].Read?;
    }
  }

  lemma AnswerShows(cfg: P.Config, sub: P.Subscription, detail: View)
    requires sub.schedule.Some? ==> sub.schedule.value in detail.schedules
    ensures Answer(cfg, sub, detail).Some? && ShowsAs(cfg, sub, Answer(cfg, sub, detail).value)
  {
  }

  /** An upgrade call with a new key changes exactly its subscription: paid, to the new price and period without a
      cancellation; unpaid, by a payment that is due. */
  lemma UpgradeTakes(cfg: P.Config, s: State, w: nat, taken: Taken)
    requires s.history != [] && Holds(s, w) && Upgrading(cfg, s, w) && UpgradeKey(s, w) !in s.answers
    requires !taken.Declined? && FindSub(Last(s).current, UpgradeKey(s, w).id).Some?
    ensures var t := Step(cfg, s, Upgrade(w, taken)); var id := UpgradeKey(s, w).id;
            var sub := FindSub(Last(s).current, id).value;
            && |t.history| == |s.history| + 1
            && FindSub(Last(t).current, id) ==
               Some(if taken.Paid? then sub.(items := [P.Item(UpgradePrice(cfg, s, w), 1)], periodEnd := taken.end, cancel := false)
                    else sub.(pendingUpdate := Some(taken.lapse)))
            && forall other | other != id :: FindSub(Last(t).current, other) == FindSub(Last(s).current, other)
  {
    var id := UpgradeKey(s, w).id;
    var sub := FindSub(Last(s).current, id).value;
    FoundHasId(Last(s).current, id);
    FindReplaced(Last(s).current, id, Taking(sub, UpgradePrice(cfg, s, w), taken));
    forall other | other != id ensures FindSub(Last(Step(cfg, s, Upgrade(w, taken))).current, other) == FindSub(Last(s).current, other) {
      FindOthers(Last(s).current, id, Taking(sub, UpgradePrice(cfg, s, w), taken), other);
    }
  }

  lemma {:induction false} FindOthers(subs: seq<P.Subscription>, id: string, by': P.Subscription, other: string)
    requires by'.id == id && other != id
    ensures FindSub(ReplaceSub(subs, id, by'), other) == FindSub(subs, other)
    decreases |subs|
  {
    if subs != [] {
      if subs[0].id == id {
        assert ReplaceSub(subs, id, by')[1..] == subs[1..];
      } else {
        assert ReplaceSub(subs, id, by')[1..] == ReplaceSub(subs[1..], id, by');
        FindOthers(subs[1..], id, by', other);
      }
    }
  }

  // ---------------------------------------------------------------- the run that goes back

  lemma {:induction false} RunAppend(cfg: P.Config, s: State, a: seq<Event>, b: seq<Event>)
    ensures Run(cfg, s, a + b) == Run(cfg, Run(cfg, s, a), b)
    decreases |a|
  {
    if a == [] {
      assert a + b == b;
    } else {
      assert (a + b)[0] == a[0] && (a + b)[1..] == a[1..] + b;
      RunAppend(cfg, Step(cfg, s, a[0]), a[1..], b);
    }
  }

  lemma RunThree(cfg: P.Config, s: State, a: Event, b: Event, c: Event)
    ensures Run(cfg, s, [a, b, c]) == Step(cfg, Step(cfg, Step(cfg, s, a), b), c)
  {
    hide Step;
    assert [a, b, c][1..] == [b, c] && [b, c][1..] == [c] && [c][1..] == [];
    var s2 := Step(cfg, Step(cfg, s, a), b);
    assert Run(cfg, s2, [c]) == Run(cfg, Step(cfg, s2, c), []);
    assert Run(cfg, Step(cfg, s, a), [b, c]) == Run(cfg, s2, [c]);
  }

  /** `view` shows one subscription without a schedule, and `form` asks for a Pro plan that it may have. */
  ghost predicate Upgradable(cfg: P.Config, view: View, form: P.Form, now: nat) {
    !view.page && |view.current| == 1 &&
    var sub := view.current[0];
    var shown := P.Respond(cfg, sub, None);
    && sub.schedule.None? && sub.customer == cfg.customer && sub.periodEnd > now + 60
    && shown.canManage && shown.version == form.expected
    && P.Pro(form.plan) && !P.Pro(shown.plan) && (form.plan, sub.currency) in cfg.offered
  }

  /** The view with the upgrade waiting for its payment. */
  function Waiting(view: View, lapse: nat): View
    requires |view.current| == 1
  {
    view.(current := [view.current[0].(pendingUpdate := Some(lapse))])
  }

  /** A request up to and including its upgrade call, and what follows. */
  function Request(form: P.Form, now: nat, taken: Taken): seq<Event> {
    [Acquire(0, false), Consider(0, form), Decide(0, false, now)] + [Upgrade(0, taken), Detail(0), Commit(0)]
  }

  /** Worker 0 idle between two requests. */
  function Between(history: seq<View>, answers: map<Key, Record>, row: Option<Stored>): State {
    State(history, answers, row, None, [Idle])
  }

  lemma Requested(cfg: P.Config, s: State, view: View, form: P.Form, now: nat)
    requires Upgradable(cfg, view, form, now) && s.history != [] && Last(s) == view
    requires s == Between(s.history, s.answers, s.row)
    ensures var t := Run(cfg, s, [Acquire(0, false), Consider(0, form), Decide(0, false, now)]);
            && t == s.(holder := Some(0), workers := [Accepted(|s.history| - 1, form, P.Respond(cfg, view.current[0], None).plan)])
            && Upgrading(cfg, t, 0) && UpgradeKey(t, 0) == Key(view.current[0].id, form.request)
            && UpgradePrice(cfg, t, 0) == cfg.offered[(form.plan, view.current[0].currency)]
  {
    hide P.Respond;
    var last := |s.history| - 1;
    RunThree(cfg, s, Acquire(0, false), Consider(0, form), Decide(0, false, now));
    var s1 := Step(cfg, s, Acquire(0, false));
    assert s1 == s.(holder := Some(0), workers := [Locked(false)]);
    var s2 := Step(cfg, s1, Consider(0, form));
    assert s2 == s.(holder := Some(0), workers := [Considering(last, form)]);
    assert Judged(cfg, s2, last, false) == Some(P.Respond(cfg, view.current[0], None));
    assert Step(cfg, s2, Decide(0, false, now)).workers == [Accepted(last, form, P.Respond(cfg, view.current[0], None).plan)];
  }

  /** From an answered upgrade call on: the answer is read and stored. */
  lemma AnswerIsStored(cfg: P.Config, s: State, list: nat, sub: P.Subscription)
    requires s.history != [] && list < |s.history| && sub.schedule.None? && s.holder == Some(0)
    requires FindSub(s.history[list].current, sub.id) == Some(sub) && s.workers == [Listed(list, One(sub.id))]
    ensures Answer(cfg, sub, Last(s)).Some?
    ensures Step(cfg, Step(cfg, s, Detail(0)), Commit(0)) ==
            Between(s.history, s.answers,
                    Some(Stored(list, One(sub.id), |s.history| - 1, Answer(cfg, sub, Last(s)).value)))
  {
    hide FindSub, P.Respond;
    var x := Stored(list, One(sub.id), |s.history| - 1, Answer(cfg, sub, Last(s)).value);
    var t := Step(cfg, s, Detail(0));
    assert t == s.(workers := [Read(x)]);
    assert Step(cfg, t, Commit(0)).workers == [Idle];
  }

  /** The upgrade call whose charge fails. */
  lemma CallFails(cfg: P.Config, s: State, view: View, lapse: nat)
    requires s.history == [view] && s.answers == map[] && s.holder == Some(0) && |view.current| == 1
    requires |s.workers| == 1 && Upgrading(cfg, s, 0) && UpgradeKey(s, 0).id == view.current[0].id
    ensures Step(cfg, s, Upgrade(0, Unpaid(lapse))) ==
            s.(history := [view, Waiting(view, lapse)],
               answers := map[UpgradeKey(s, 0) := Record(UpgradePrice(cfg, s, 0), 1)],
               workers := [Listed(1, One(view.current[0].id))])
  {
    var id, waiting := view.current[0].id, Waiting(view, lapse);
    assert FindSub(view.current, id) == Some(view.current[0]);
    assert ReplaceSub(view.current, id, waiting.current[0]) == waiting.current;
    hide FindSub, ReplaceSub, Upgrading, UpgradeKey, UpgradePrice;
    assert Step(cfg, s, Upgrade(0, Unpaid(lapse))) == DoUpgrade(cfg, s, 0, Unpaid(lapse));
  }

  /** The first request: the charge fails, and the answer is stored. */
  lemma ChargeFails(cfg: P.Config, view: View, form: P.Form, now: nat, lapse: nat)
    requires Upgradable(cfg, view, form, now)
    ensures var id := view.current[0].id; var price := cfg.offered[(form.plan, view.current[0].currency)];
            var waiting := Waiting(view, lapse);
            && Answer(cfg, waiting.current[0], waiting).Some?
            && Run(cfg, Between([view], map[], None), Request(form, now, Unpaid(lapse))) ==
               Between([view, waiting], map[Key(id, form.request) := Record(price, 1)],
                       Some(Stored(1, One(id), 1, Answer(cfg, waiting.current[0], waiting).value)))
  {
    var s, waiting := Between([view], map[], None), Waiting(view, lapse);
    var head, tail := [Acquire(0, false), Consider(0, form), Decide(0, false, now)], [Upgrade(0, Unpaid(lapse)), Detail(0), Commit(0)];
    Requested(cfg, s, view, form, now);
    hide P.Respond, Step, Run, Upgrading, UpgradeKey, UpgradePrice, Answer;
    RunAppend(cfg, s, head, tail);
    var t := Run(cfg, s, head);
    RunThree(cfg, t, Upgrade(0, Unpaid(lapse)), Detail(0), Commit(0));
    CallFails(cfg, t, view, lapse);
    AnswerIsStored(cfg, Step(cfg, t, Upgrade(0, Unpaid(lapse))), 1, waiting.current[0]);
  }

  function LapseAndSync(view: View): seq<Event> {
    [Change(view), Acquire(0, false), List(0)] + [Detail(0), Commit(0)]
  }

  /** The pending update lapses, and the lapse is synced. */
  lemma LapseIsSynced(cfg: P.Config, s: State, view: View)
    requires s == Between(s.history, s.answers, s.row) && Shown(cfg, view, view).Some?
    ensures Run(cfg, s, LapseAndSync(view)) ==
            Between(s.history + [view], s.answers,
                    Some(Stored(|s.history|, All, |s.history|, Shown(cfg, view, view).value)))
  {
    hide Shown;
    RunAppend(cfg, s, [Change(view), Acquire(0, false), List(0)], [Detail(0), Commit(0)]);
    RunThree(cfg, s, Change(view), Acquire(0, false), List(0));
    var s1 := Step(cfg, s, Change(view));
    assert s1 == Between(s.history + [view], s.answers, s.row);
    UndisturbedSync(cfg, s1, 0);
    var s3 := Step(cfg, Step(cfg, s1, Acquire(0, false)), List(0));
    assert [Detail(0), Commit(0)][1..] == [Commit(0)];
    assert Run(cfg, Step(cfg, s3, Detail(0)), [Commit(0)]) == Run(cfg, Step(cfg, Step(cfg, s3, Detail(0)), Commit(0)), []);
  }

  /** The request is sent again: it is accepted, and answered from the record. */
  lemma RetryIsReplayed(cfg: P.Config, s: State, view: View, form: P.Form, now: nat, taken: Taken, waiting: View)
    requires Upgradable(cfg, view, form, now) && s == Between(s.history, s.answers, s.row)
    requires |s.history| == 3 && s.history[2] == view && s.history[1] == waiting
    requires |waiting.current| == 1 && waiting.current[0].id == view.current[0].id && waiting.current[0].schedule.None?
    requires var key := Key(view.current[0].id, form.request);
             key in s.answers && s.answers[key] == Record(cfg.offered[(form.plan, view.current[0].currency)], 1)
    ensures var id := view.current[0].id;
            && Answer(cfg, waiting.current[0], view).Some?
            && Run(cfg, s, Request(form, now, taken)) ==
               s.(row := Some(Stored(1, One(id), 2, Answer(cfg, waiting.current[0], view).value)))
  {
    var head, tail := [Acquire(0, false), Consider(0, form), Decide(0, false, now)], [Upgrade(0, taken), Detail(0), Commit(0)];
    Requested(cfg, s, view, form, now);
    hide P.Respond, Run, Upgrading, UpgradeKey, UpgradePrice, Answer;
    RunAppend(cfg, s, head, tail);
    var t := Run(cfg, s, head);
    RunThree(cfg, t, Upgrade(0, taken), Detail(0), Commit(0));
    var t1 := Step(cfg, t, Upgrade(0, taken));
    assert t1 == t.(workers := [Listed(1, One(view.current[0].id))]);
    AnswerIsStored(cfg, t1, 1, waiting.current[0]);
  }

  /** The run: a charge fails, the pending update lapses, the lapse is synced, and the request is sent again.
      The snapshot then shows a change waiting for payment that the provider has dropped. */
  lemma RetryGoesBack(cfg: P.Config, view: View, form: P.Form, now: nat, later: nat, lapse: nat, taken: Taken)
    requires Upgradable(cfg, view, form, now) && Upgradable(cfg, view, form, later)
    ensures var s := Run(cfg, Initial(view), [Start] + (Request(form, now, Unpaid(lapse)) + LapseAndSync(view)));
            var t := Run(cfg, s, Request(form, later, taken));
            && t.history == s.history == [view, Waiting(view, lapse), view]
            && s.row.Some? && Some(s.row.value.snapshot) == Shown(cfg, view, view) && !ShowsUpgraded(s.row.value.snapshot)
            && t.row.Some? && ShowsUpgraded(t.row.value.snapshot) && !Onward(s.row, t.row)
  {
    var waiting, id := Waiting(view, lapse), view.current[0].id;
    var sub, owed := view.current[0], waiting.current[0];
    ShownUpgraded(cfg, sub, view);
    ShownUpgraded(cfg, owed, view);
    assert !Upgraded(cfg, sub) by { ManagedIsNotUpgraded(cfg, sub, None); }
    hide P.Respond, Request, LapseAndSync, ShowsUpgraded, Upgradable;
    var start := Between([view], map[], None);
    assert Run(cfg, Initial(view), [Start]) == start by {
      assert Run(cfg, Initial(view), [Start]) == Run(cfg, Step(cfg, Initial(view), Start), []);
    }
    RunAppend(cfg, Initial(view), [Start], Request(form, now, Unpaid(lapse)) + LapseAndSync(view));
    RunAppend(cfg, start, Request(form, now, Unpaid(lapse)), LapseAndSync(view));
    ChargeFails(cfg, view, form, now, lapse);
    LapseIsSynced(cfg, Run(cfg, start, Request(form, now, Unpaid(lapse))), view);
    var s := Run(cfg, start, Request(form, now, Unpaid(lapse)) + LapseAndSync(view));
    assert s.history == [view, waiting, view];
    RetryIsReplayed(cfg, s, view, form, later, taken, waiting);
  }
}
