/**
 The profile photo of one user: an object store and a database row, changed by uploads, deletions and
 account deletion that interleave at every await, while any call may fail with or without effect.

 A version is a fresh UUID, here the next unused number; `made[v]` is the reference version v names.
 The outcome of a failed commit is settled before its error is returned.
 */
module ProfilePhoto {
  import opened Wrappers

  const MAX_UPLOAD_BYTES: nat := 8 * 1024 * 1024

  datatype Url = NoUrl | External(address: string) | Version(v: nat)

  datatype Reference = Reference(version: nat, storage: string)

  datatype Snapshot = Snapshot(url: Url, reference: Option<Reference>)

  /** How a call to the store or the database went. */
  datatype Fate = Fine | FailedDone | FailedUndone

  // ---------------------------------------------------------------- state

  datatype Caller =
    | Uploading(storage: string)
    | Looked(storage: string, previous: Snapshot)
    | Drawn(previous: Snapshot, own: Reference)
    | Put(previous: Snapshot, own: Reference)
    | Ambiguous(own: Reference)
    | Deleting(storage: string)
    | DeleteLooked(storage: string, previous: Snapshot)
    | Cleaning(storage: string, target: Option<Reference>)
    | Done

  datatype State = State(active: bool, row: Snapshot, store: set<Reference>, made: seq<Reference>, callers: seq<Caller>)

  datatype Event =
    | Arrive(caller: Caller)
    | Look(c: nat, readable: bool)
    | Reject(c: nat)
    | Draw(c: nat)
    | Store(c: nat, fate: Fate)
    | Replace(c: nat, fate: Fate)
    | Compensate(c: nat, readable: bool)
    | Clean(c: nat, fate: Fate)
    | DeleteAccount(storage: string, fate: Fate)
    | Abandon(c: nat)

  function To(s: State, c: nat, p: Caller): State
    requires c < |s.callers|
  {
    s.(callers := s.callers[c := p])
  }

  /** What `ProfilePhotos.get` finds: None for an unreadable row, a missing or inactive user. */
  function Found(s: State, readable: bool): Option<Snapshot> {
    if readable && s.active then Some(s.row) else None
  }

  /** The conditional update: matches the active row by its URL alone. */
  predicate Matches(s: State, expected: Url) {
    s.active && s.row.url == expected
  }

  function DoStore(s: State, c: nat, fate: Fate): State
    requires c < |s.callers| && s.callers[c].Drawn?
  {
    var Drawn(previous, own) := s.callers[c];
    var s' := if fate.FailedUndone? then s else s.(store := s.store + {own});
    // A failed put may have written the key, so it is cleaned up.
    To(s', c, if fate.Fine? then Put(previous, own) else Cleaning(own.storage, Some(own)))
  }

  function DoReplace(s: State, c: nat, fate: Fate): State
    requires c < |s.callers| && s.callers[c].Put?
  {
    var Put(previous, own) := s.callers[c];
    var changed := Matches(s, previous.url);
    var s' := if changed && !fate.FailedUndone? then s.(row := Snapshot(Version(own.version), Some(own))) else s;
    To(s', c,
       if !fate.Fine? then Ambiguous(own)
       else if changed then Cleaning(own.storage, previous.reference)
       else Cleaning(own.storage, Some(own)))
  }

  function DoDelete(s: State, c: nat, fate: Fate): State
    requires c < |s.callers| && s.callers[c].DeleteLooked?
  {
    var DeleteLooked(storage, previous) := s.callers[c];
    var changed := Matches(s, previous.url);
    var s' := if changed && !fate.FailedUndone? then s.(row := Snapshot(NoUrl, None)) else s;
    To(s', c, if fate.Fine? && changed then Cleaning(storage, previous.reference) else Done)
  }

  function DoCompensate(s: State, c: nat, readable: bool): State
    requires c < |s.callers| && s.callers[c].Ambiguous?
  {
    var own := s.callers[c].own;
    // An unreadable row leaves the key for review; a missing user does not keep it.
    To(s, c,
       if !readable then Done
       else if s.active && s.row.reference == Some(own) then Done
       else Cleaning(own.storage, Some(own)))
  }

  function DoClean(s: State, c: nat, fate: Fate): State
    requires c < |s.callers| && s.callers[c].Cleaning?
  {
    var Cleaning(storage, target) := s.callers[c];
    var s' := if target.None? || target.value.storage != storage || fate.FailedUndone? then s
              else s.(store := s.store - {target.value});
    To(s', c, Done)
  }

  function Step(s: State, e: Event): State {
    match e
    case Arrive(p) => if p.Uploading? || p.Deleting? then s.(callers := s.callers + [p]) else s
    case Look(c, readable) =>
      if c < |s.callers| && s.callers[c].Uploading? then
        To(s, c, match Found(s, readable) case Some(x) => Looked(s.callers[c].storage, x) case None => Done)
      else if c < |s.callers| && s.callers[c].Deleting? then
        To(s, c, match Found(s, readable) case Some(x) => DeleteLooked(s.callers[c].storage, x) case None => Done)
      else s
    case Reject(c) => if c < |s.callers| && s.callers[c].Looked? then To(s, c, Done) else s
    case Draw(c) =>
      if c < |s.callers| && s.callers[c].Looked? then
        var own := Reference(|s.made|, s.callers[c].storage);
        To(s.(made := s.made + [own]), c, Drawn(s.callers[c].previous, own))
      else s
    case Store(c, fate) => if c < |s.callers| && s.callers[c].Drawn? then DoStore(s, c, fate) else s
    case Replace(c, fate) =>
      if c < |s.callers| && s.callers[c].Put? then DoReplace(s, c, fate)
      else if c < |s.callers| && s.callers[c].DeleteLooked? then DoDelete(s, c, fate)
      else s
    case Compensate(c, readable) => if c < |s.callers| && s.callers[c].Ambiguous? then DoCompensate(s, c, readable) else s
    case Clean(c, fate) => if c < |s.callers| && s.callers[c].Cleaning? then DoClean(s, c, fate) else s
    case DeleteAccount(storage, fate) =>
      if !s.active then s
      else
        var s' := if fate.FailedUndone? then s else s.(active := false, row := Snapshot(NoUrl, None));
        s'.(callers := s'.callers + [if fate.Fine? then Cleaning(storage, s.row.reference) else Done])
    case Abandon(c) => if c < |s.callers| then To(s, c, Done) else s
  }

  function Run(s: State, es: seq<Event>): State
    decreases |es|
  {
    if es == [] then s else Run(Step(s, es[0]), es[1..])
  }

  // ---------------------------------------------------------------- the invariant

  /** The URL determines the reference: a version names the reference it was made with, and every
      other URL goes with none. */
  ghost predicate Coupled(made: seq<Reference>, x: Snapshot) {
    match x.url
    case Version(v) => v < |made| && x.reference == Some(made[v])
    case _ => x.reference == None
  }

  ghost predicate Known(made: seq<Reference>, r: Reference) {
    r.version < |made| && made[r.version] == r
  }

  predicate Writer(p: Caller) {
    p.Drawn? || p.Put?
  }

  /** No caller is still about to write version `v` to the row. */
  ghost predicate NobodyWrites(s: State, v: nat) {
    forall c | 0 <= c < |s.callers| && Writer(s.callers[c]) :: s.callers[c].own.version != v
  }

  /** `r` is not the committed reference and never will be again. */
  ghost predicate Gone(s: State, r: Reference) {
    Known(s.made, r) && s.row.reference != Some(r) && NobodyWrites(s, r.version)
  }

  ghost predicate CallerInv(s: State, p: Caller) {
    match p
    case Looked(_, previous) => Coupled(s.made, previous)
    case DeleteLooked(_, previous) => Coupled(s.made, previous)
    case Drawn(previous, own) => Coupled(s.made, previous) && Known(s.made, own) && s.row.reference != Some(own)
    case Put(previous, own) =>
      Coupled(s.made, previous) && Known(s.made, own) && s.row.reference != Some(own) && own in s.store
    case Ambiguous(own) => Known(s.made, own) && NobodyWrites(s, own.version)
    case Cleaning(_, Some(r)) => Gone(s, r)
    case _ => true
  }

  /** The committed reference names an object in the store. */
  ghost predicate Safe(s: State) {
    s.row.reference.Some? ==> s.row.reference.value in s.store
  }

  ghost predicate OneWriterEach(s: State) {
    forall c, d | 0 <= c < d < |s.callers| && Writer(s.callers[c]) && Writer(s.callers[d]) ::
      s.callers[c].own.version != s.callers[d].own.version
  }

  ghost predicate Inv(s: State) {
    && Safe(s) && Coupled(s.made, s.row) && OneWriterEach(s) && (s.active || s.row == Snapshot(NoUrl, None))
    && (forall v | 0 <= v < |s.made| :: s.made[v].version == v)
    && (forall c | 0 <= c < |s.callers| :: CallerInv(s, s.callers[c]))
  }

  /** Caller `c` moves to `t.callers[c]`, writing no new version; the row's reference and the objects
      that matter stay. */
  lemma MoveKeeps(s: State, c: nat, t: State)
    requires Inv(s) && c < |s.callers| == |t.callers| && t.made == s.made && t.callers == s.callers[c := t.callers[c]]
    requires Writer(t.callers[c]) ==> Writer(s.callers[c]) && t.callers[c].own == s.callers[c].own
    requires t.row == s.row && t.active == s.active
    requires forall r | r in s.store && r !in t.store :: Gone(s, r)
    requires CallerInv(t, t.callers[c])
    ensures Inv(t)
  {
    forall d | 0 <= d < |t.callers| ensures CallerInv(t, t.callers[d]) {
      if d != c { assert CallerInv(s, s.callers[d]); }
    }
  }

  lemma LessPending(s: State, c: nat, t: State, v: nat)
    requires c < |s.callers| && |t.callers| == |s.callers| && t.callers == s.callers[c := t.callers[c]]
    requires Writer(t.callers[c]) ==> Writer(s.callers[c]) && t.callers[c].own == s.callers[c].own
    requires NobodyWrites(s, v)
    ensures NobodyWrites(t, v)
  {
  }

  /** Once its writer has moved on, nobody writes a version any more. */
  lemma WriterDone(s: State, c: nat, t: State)
    requires Inv(s) && c < |s.callers| && Writer(s.callers[c]) && |t.callers| == |s.callers|
    requires t.callers == s.callers[c := t.callers[c]] && !Writer(t.callers[c])
    ensures NobodyWrites(t, s.callers[c].own.version)
  {
  }

  lemma DrawKeeps(s: State, c: nat)
    requires Inv(s) && c < |s.callers| && s.callers[c].Looked?
    ensures Inv(Step(s, Draw(c)))
  {
    var t := Step(s, Draw(c));
    assert CallerInv(s, s.callers[c]);
    forall d | 0 <= d < |t.callers| ensures CallerInv(t, t.callers[d]) {
      if d != c { assert CallerInv(s, s.callers[d]); }
    }
    forall d | 0 <= d < |t.callers| && Writer(t.callers[d]) && d != c ensures t.callers[d].own.version < |s.made| {
      assert CallerInv(s, s.callers[d]);
    }
  }

  lemma StoreKeeps(s: State, c: nat, fate: Fate)
    requires Inv(s) && c < |s.callers| && s.callers[c].Drawn?
    ensures Inv(DoStore(s, c, fate))
  {
    var t := DoStore(s, c, fate);
    assert CallerInv(s, s.callers[c]);
    if !fate.Fine? { WriterDone(s, c, t); }
    MoveKeeps(s, c, t);
  }

  /** The swap went through: what the row referred to before is gone for good. */
  lemma SwapKeeps(s: State, c: nat, t: State)
    requires Inv(s) && c < |s.callers| && s.callers[c].Put? && Matches(s, s.callers[c].previous.url)
    requires t.made == s.made && t.store == s.store && t.active && |t.callers| == |s.callers|
    requires t.callers == s.callers[c := t.callers[c]]
    requires t.row == Snapshot(Version(s.callers[c].own.version), Some(s.callers[c].own))
    requires t.callers[c] == Ambiguous(s.callers[c].own) || t.callers[c] == Cleaning(s.callers[c].own.storage, s.callers[c].previous.reference)
    ensures Inv(t)
  {
    var Put(previous, own) := s.callers[c];
    assert CallerInv(s, s.callers[c]);
    assert previous.reference == s.row.reference;
    WriterDone(s, c, t);
    forall d | 0 <= d < |t.callers| ensures CallerInv(t, t.callers[d]) {
      if d == c {
        if previous.reference.Some? { NotWritten(s, previous.reference.value); }
      } else {
        assert CallerInv(s, s.callers[d]);
      }
    }
  }

  /** The committed reference has no writer left. */
  lemma NotWritten(s: State, r: Reference)
    requires Inv(s) && s.row.reference == Some(r)
    ensures NobodyWrites(s, r.version)
  {
    forall c | 0 <= c < |s.callers| && Writer(s.callers[c]) ensures s.callers[c].own.version != r.version {
      assert CallerInv(s, s.callers[c]);
    }
  }

  lemma ReplaceKeeps(s: State, c: nat, fate: Fate)
    requires Inv(s) && c < |s.callers| && s.callers[c].Put?
    ensures Inv(DoReplace(s, c, fate))
  {
    var t := DoReplace(s, c, fate);
    assert CallerInv(s, s.callers[c]);
    WriterDone(s, c, t);
    if Matches(s, s.callers[c].previous.url) && !fate.FailedUndone? {
      SwapKeeps(s, c, t);
    } else {
      MoveKeeps(s, c, t);
    }
  }

  /** Clearing the row, by the user or with the account: what it referred to is gone for good. */
  lemma ClearKeeps(s: State, t: State, storage: string)
    requires Inv(s) && t.made == s.made && t.store == s.store && t.row == Snapshot(NoUrl, None)
    requires |s.callers| <= |t.callers|
    requires forall d | 0 <= d < |t.callers| ::
               (d < |s.callers| && t.callers[d] == s.callers[d]) || t.callers[d].Done?
               || t.callers[d] == Cleaning(storage, s.row.reference)
    ensures Inv(t)
  {
    forall d | 0 <= d < |t.callers| ensures CallerInv(t, t.callers[d]) {
      if d < |s.callers| && t.callers[d] == s.callers[d] {
        assert CallerInv(s, s.callers[d]);
      } else if s.row.reference.Some? {
        NotWritten(s, s.row.reference.value);
      }
    }
  }

  lemma DeleteKeeps(s: State, c: nat, fate: Fate)
    requires Inv(s) && c < |s.callers| && s.callers[c].DeleteLooked?
    ensures Inv(DoDelete(s, c, fate))
  {
    var t := DoDelete(s, c, fate);
    assert CallerInv(s, s.callers[c]);
    if Matches(s, s.callers[c].previous.url) && !fate.FailedUndone? {
      assert s.callers[c].previous.reference == s.row.reference;
      ClearKeeps(s, t, s.callers[c].storage);
    } else {
      MoveKeeps(s, c, t);
    }
  }

  lemma CleanKeeps(s: State, c: nat, fate: Fate)
    requires Inv(s) && c < |s.callers| && s.callers[c].Cleaning?
    ensures Inv(DoClean(s, c, fate))
  {
    assert CallerInv(s, s.callers[c]);
    MoveKeeps(s, c, DoClean(s, c, fate));
  }

  lemma CompensateKeeps(s: State, c: nat, readable: bool)
    requires Inv(s) && c < |s.callers| && s.callers[c].Ambiguous?
    ensures Inv(DoCompensate(s, c, readable))
  {
    var t := DoCompensate(s, c, readable);
    assert CallerInv(s, s.callers[c]);
    LessPending(s, c, t, s.callers[c].own.version);
    MoveKeeps(s, c, t);
  }

  lemma ArriveKeeps(s: State, p: Caller)
    requires Inv(s) && (p.Uploading? || p.Deleting? || p.Done?)
    ensures Inv(s.(callers := s.callers + [p]))
  {
    var t := s.(callers := s.callers + [p]);
    forall d | 0 <= d < |t.callers| ensures CallerInv(t, t.callers[d]) {
      if d < |s.callers| { assert CallerInv(s, s.callers[d]); }
    }
  }

  lemma LookKeeps(s: State, c: nat, readable: bool)
    requires Inv(s) && c < |s.callers|
    ensures Inv(Step(s, Look(c, readable)))
  {
    if s.callers[c].Uploading? || s.callers[c].Deleting? { MoveKeeps(s, c, Step(s, Look(c, readable))); }
  }

  lemma StepKeeps(s: State, e: Event)
    requires Inv(s)
    ensures Inv(Step(s, e))
  {
    match e
    case Arrive(p) => if p.Uploading? || p.Deleting? { ArriveKeeps(s, p); }
    case Look(c, readable) => if c < |s.callers| { LookKeeps(s, c, readable); }
    case Reject(c) => if c < |s.callers| { MoveKeeps(s, c, To(s, c, Done)); }
    case Draw(c) => if c < |s.callers| && s.callers[c].Looked? { DrawKeeps(s, c); }
    case Store(c, fate) => if c < |s.callers| && s.callers[c].Drawn? { StoreKeeps(s, c, fate); }
    case Replace(c, fate) =>
      if c < |s.callers| && s.callers[c].Put? { ReplaceKeeps(s, c, fate); }
      else if c < |s.callers| && s.callers[c].DeleteLooked? { DeleteKeeps(s, c, fate); }
    case Compensate(c, readable) => if c < |s.callers| && s.callers[c].Ambiguous? { CompensateKeeps(s, c, readable); }
    case Clean(c, fate) => if c < |s.callers| && s.callers[c].Cleaning? { CleanKeeps(s, c, fate); }
    case DeleteAccount(storage, fate) =>
      if s.active {
        if fate.FailedUndone? { ArriveKeeps(s, Done); } else { ClearKeeps(s, Step(s, e), storage); }
      }
    case Abandon(c) => if c < |s.callers| { MoveKeeps(s, c, To(s, c, Done)); }
  }

  lemma {:induction false} RunKeeps(s: State, es: seq<Event>)
    requires Inv(s)
    ensures Inv(Run(s, es))
    decreases |es|
  {
    if es != [] {
      StepKeeps(s, es[0]);
      RunKeeps(Step(s, es[0]), es[1..]);
    }
  }

  // ---------------------------------------------------------------- main results

  /** A new account, perhaps with a picture hosted elsewhere. */
  function Initial(url: Url): State
    requires !url.Version?
  {
    State(true, Snapshot(url, None), {}, [], [])
  }

  /** Whatever interleaves and whatever fails, the committed reference names a stored object. */
  lemma CommittedPhotoExists(url: Url, es: seq<Event>)
    requires !url.Version?
    ensures var s := Run(Initial(url), es); s.row.reference.Some? ==> s.row.reference.value in s.store
  {
    RunKeeps(Initial(url), es);
  }

  /** The update matches by URL alone, yet it never replaces a reference its caller has not seen. */
  lemma UrlDeterminesReference(url: Url, es: seq<Event>, c: nat)
    requires !url.Version?
    requires var s := Run(Initial(url), es);
             c < |s.callers| && (s.callers[c].Put? || s.callers[c].DeleteLooked?) && Matches(s, s.callers[c].previous.url)
    ensures var s := Run(Initial(url), es); s.row == s.callers[c].previous
  {
    RunKeeps(Initial(url), es);
    var s := Run(Initial(url), es);
    assert CallerInv(s, s.callers[c]);
  }

  // ---------------------------------------------------------------- runs without failures

  predicate Smooth(e: Event, storage: string) {
    match e
    case Arrive(p) => (p.Uploading? || p.Deleting?) && p.storage == storage
    case Look(_, readable) => readable
    case Store(_, fate) => fate.Fine?
    case Replace(_, fate) => fate.Fine?
    case Compensate(_, readable) => readable
    case Clean(_, fate) => fate.Fine?
    case DeleteAccount(st, fate) => fate.Fine? && st == storage
    case Abandon(_) => false
    case _ => true
  }

  /** Somebody is still going to commit or remove `r`. */
  predicate Handles(p: Caller, r: Reference) {
    (p.Put? && p.own == r) || (p.Cleaning? && p.target == Some(r))
  }

  ghost predicate Accounted(s: State, r: Reference) {
    s.row.reference == Some(r) || exists c :: 0 <= c < |s.callers| && Handles(s.callers[c], r)
  }

  ghost predicate Local(p: Caller, storage: string) {
    match p
    case Uploading(st) => st == storage
    case Looked(st, _) => st == storage
    case Drawn(_, own) => own.storage == storage
    case Put(_, own) => own.storage == storage
    case Ambiguous(_) => false
    case Deleting(st) => st == storage
    case DeleteLooked(st, _) => st == storage
    case Cleaning(st, _) => st == storage
    case Done => true
  }

  ghost predicate Tidy(s: State, storage: string) {
    && Inv(s)
    && (forall r | r in s.store :: Accounted(s, r))
    && (forall v | 0 <= v < |s.made| :: s.made[v].storage == storage)
    && (forall c | 0 <= c < |s.callers| :: Local(s.callers[c], storage))
  }

  /** Everything accounted for by somebody else, or by the row, stays accounted for. */
  lemma StillAccounted(s: State, t: State, c: nat, r: Reference)
    requires Accounted(s, r) && c < |s.callers| <= |t.callers| && t.row == s.row
    requires forall d | 0 <= d < |s.callers| && d != c :: t.callers[d] == s.callers[d]
    requires Handles(s.callers[c], r) ==> Handles(t.callers[c], r)
    ensures Accounted(t, r)
  {
    if s.row.reference != Some(r) {
      var d :| 0 <= d < |s.callers| && Handles(s.callers[d], r);
      assert Handles(t.callers[d], r);
    }
  }

  lemma SmoothStoreKeeps(s: State, storage: string, c: nat)
    requires Tidy(s, storage) && c < |s.callers| && s.callers[c].Drawn?
    ensures Tidy(DoStore(s, c, Fine), storage)
  {
    var t := DoStore(s, c, Fine);
    StoreKeeps(s, c, Fine);
    assert Local(s.callers[c], storage);
    forall r | r in t.store ensures Accounted(t, r) {
      if r == s.callers[c].own { assert Handles(t.callers[c], r); } else { StillAccounted(s, t, c, r); }
    }
  }

  /** A caller that has replaced the row goes on to remove what the row referred to. */
  lemma ReplacedStaysTidy(s: State, storage: string, c: nat, t: State)
    requires Tidy(s, storage) && Inv(t) && c < |s.callers| && t.store == s.store && t.made == s.made
    requires t.callers == s.callers[c := Cleaning(storage, s.row.reference)]
    requires forall r | Handles(s.callers[c], r) :: t.row.reference == Some(r)
    ensures Tidy(t, storage)
  {
    hide Inv;
    forall r | r in t.store ensures Accounted(t, r) {
      if s.row.reference == Some(r) {
        assert Handles(t.callers[c], r);
      } else {
        var d :| 0 <= d < |s.callers| && Handles(s.callers[d], r);
        if d != c { assert Handles(t.callers[d], r); }
      }
    }
  }

  /** A caller that came too late goes on to remove what it made itself, if anything. */
  lemma LateStaysTidy(s: State, storage: string, c: nat, t: State)
    requires Tidy(s, storage) && Inv(t) && c < |s.callers| == |t.callers| && t == s.(callers := s.callers[c := t.callers[c]])
    requires Local(t.callers[c], storage)
    requires forall r | Handles(s.callers[c], r) :: Handles(t.callers[c], r)
    ensures Tidy(t, storage)
  {
    hide Inv;
    forall r | r in t.store ensures Accounted(t, r) { StillAccounted(s, t, c, r); }
  }

  lemma SmoothReplaceKeeps(s: State, storage: string, c: nat)
    requires Tidy(s, storage) && c < |s.callers| && (s.callers[c].Put? || s.callers[c].DeleteLooked?)
    ensures Tidy(Step(s, Replace(c, Fine)), storage)
  {
    var t, p := Step(s, Replace(c, Fine)), s.callers[c];
    StepKeeps(s, Replace(c, Fine));
    assert Local(p, storage) && CallerInv(s, p);
    assert Matches(s, p.previous.url) ==> p.previous == s.row;
    hide Inv, Tidy, CallerInv;
    if Matches(s, p.previous.url) {
      ReplacedStaysTidy(s, storage, c, t);
    } else {
      LateStaysTidy(s, storage, c, t);
    }
  }

  lemma SmoothCleanKeeps(s: State, storage: string, c: nat)
    requires Tidy(s, storage) && c < |s.callers| && s.callers[c].Cleaning?
    ensures Tidy(DoClean(s, c, Fine), storage)
  {
    var t := DoClean(s, c, Fine);
    CleanKeeps(s, c, Fine);
    var Cleaning(st, target) := s.callers[c];
    assert Local(s.callers[c], storage) && CallerInv(s, s.callers[c]);
    forall r | r in t.store ensures Accounted(t, r) {
      if target != Some(r) { StillAccounted(s, t, c, r); }
    }
  }

  lemma SmoothLookKeeps(s: State, storage: string, e: Event)
    requires Tidy(s, storage) && (e.Look? || e.Reject? || e.Draw?) && Smooth(e, storage) && e.c < |s.callers|
    ensures Tidy(Step(s, e), storage)
  {
    var t := Step(s, e);
    StepKeeps(s, e);
    assert Local(s.callers[e.c], storage);
    if t != s {
      forall r | r in t.store ensures Accounted(t, r) { StillAccounted(s, t, e.c, r); }
    }
  }

  lemma SmoothArrivalKeeps(s: State, storage: string, e: Event)
    requires Tidy(s, storage) && (e.Arrive? || e.DeleteAccount?) && Smooth(e, storage)
    ensures Tidy(Step(s, e), storage)
  {
    var t := Step(s, e);
    StepKeeps(s, e);
    if t != s {
      forall r | r in t.store ensures Accounted(t, r) {
        if s.row.reference == Some(r) {
          if e.DeleteAccount? { assert Handles(t.callers[|s.callers|], r); }
        } else {
          var d :| 0 <= d < |s.callers| && Handles(s.callers[d], r);
          assert Handles(t.callers[d], r);
        }
      }
    }
  }

  lemma SmoothStepKeeps(s: State, storage: string, e: Event)
    requires Tidy(s, storage) && Smooth(e, storage)
    ensures Tidy(Step(s, e), storage)
  {
    match e
    case Store(c, _) => if c < |s.callers| && s.callers[c].Drawn? { SmoothStoreKeeps(s, storage, c); }
    case Replace(c, _) =>
      if c < |s.callers| && (s.callers[c].Put? || s.callers[c].DeleteLooked?) { SmoothReplaceKeeps(s, storage, c); }
    case Clean(c, _) => if c < |s.callers| && s.callers[c].Cleaning? { SmoothCleanKeeps(s, storage, c); }
    case Compensate(c, _) => if c < |s.callers| { assert Local(s.callers[c], storage); }
    case Arrive(_) => SmoothArrivalKeeps(s, storage, e);
    case DeleteAccount(_, _) => SmoothArrivalKeeps(s, storage, e);
    case _ => if e.c < |s.callers| { SmoothLookKeeps(s, storage, e); }
  }

  lemma {:induction false} SmoothRunKeeps(s: State, storage: string, es: seq<Event>)
    requires Tidy(s, storage) && forall i | 0 <= i < |es| :: Smooth(es[i], storage)
    ensures Tidy(Run(s, es), storage)
    decreases |es|
  {
    if es != [] {
      SmoothStepKeeps(s, storage, es[0]);
      SmoothRunKeeps(Step(s, es[0]), storage, es[1..]);
    }
  }

  /** When nothing fails and everybody has finished, exactly the current photo is stored. */
  lemma NothingLeftBehind(url: Url, storage: string, es: seq<Event>)
    requires !url.Version? && forall i | 0 <= i < |es| :: Smooth(es[i], storage)
    requires forall p | p in Run(Initial(url), es).callers :: p.Done?
    ensures var s := Run(Initial(url), es);
            s.store == if s.row.reference.Some? then {s.row.reference.value} else {}
  {
    SmoothRunKeeps(Initial(url), storage, es);
    var s := Run(Initial(url), es);
    forall r | r in s.store ensures s.row.reference == Some(r) {
      assert Accounted(s, r);
      forall c | 0 <= c < |s.callers| ensures !Handles(s.callers[c], r) {
        assert s.callers[c] in s.callers;
      }
    }
  }

  /** One upload from its first read to its last cleanup, with nobody in between; steps that a failure
      leaves out do nothing. */
  function UploadAlone(s: State, c: nat, put: Fate, swap: Fate, readable: bool, clean: Fate): State {
    var drawn := Step(Step(s, Look(c, true)), Draw(c));
    Settled(Step(drawn, Store(c, put)), c, swap, readable, clean)
  }

  /** The rest of an upload from its swap on. */
  function Settled(s: State, c: nat, swap: Fate, readable: bool, clean: Fate): State {
    Step(Step(Step(s, Replace(c, swap)), Compensate(c, readable)), Clean(c, clean))
  }

  function DeleteAlone(s: State, c: nat, swap: Fate, clean: Fate): State {
    Step(Step(Step(s, Look(c, true)), Replace(c, swap)), Clean(c, clean))
  }

  /** An upload nobody disturbs replaces the photo and removes the old one. */
  lemma UndisturbedUpload(s: State, c: nat)
    requires Inv(s) && s.active && c < |s.callers| && s.callers[c].Uploading?
    requires s.row.reference.Some? ==> s.row.reference.value.storage == s.callers[c].storage
    ensures var t := UploadAlone(s, c, Fine, Fine, true, Fine);
            var own := Reference(|s.made|, s.callers[c].storage);
            && t.row == Snapshot(Version(|s.made|), Some(own)) && t.callers == s.callers[c := Done]
            && t.store == s.store + {own} - (if s.row.reference.Some? then {s.row.reference.value} else {})
  {
    var own := Reference(|s.made|, s.callers[c].storage);
    var s2 := Step(Step(s, Look(c, true)), Draw(c));
    assert s2.callers[c] == Drawn(s.row, own);
    var s3 := Step(s2, Store(c, Fine));
    var s4 := Step(s3, Replace(c, Fine));
    assert s4.callers[c] == Cleaning(own.storage, s.row.reference);
  }

  /** So does a deletion, which leaves no photo. */
  lemma UndisturbedDelete(s: State, c: nat)
    requires Inv(s) && s.active && c < |s.callers| && s.callers[c].Deleting?
    requires s.row.reference.Some? ==> s.row.reference.value.storage == s.callers[c].storage
    ensures var t := DeleteAlone(s, c, Fine, Fine);
            && t.row == Snapshot(NoUrl, None) && t.callers == s.callers[c := Done]
            && t.store == s.store - (if s.row.reference.Some? then {s.row.reference.value} else {})
  {
    var s2 := Step(Step(s, Look(c, true)), Replace(c, Fine));
    assert s2.callers[c] == Cleaning(s.callers[c].storage, s.row.reference);
  }
}
