/**
 The scheduler and the receipts together: commands start and finish in any order the scheduler allows, each
 start looks for a receipt, each finish runs the command on the output it then finds.
 */
module ParallelReuse {
  import opened Wrappers
  import opened Receipts
  import opened ReceiptReuse
  import S = Scheduler

  /** What is executed: `cached` is false for a forced execution. */
  datatype Plan = Plan(commands: seq<Command>, context: string, cached: bool)

  /** The world, and the commands whose receipts were found reusable. */
  datatype Execution = Execution(world: World, hits: set<nat>)

  function SlotAt(p: Plan, i: nat): Slot
    requires i < |p.commands|
  {
    SlotOf(p.commands[i])
  }

  function DoStart(p: Plan, x: Execution, i: nat, now: int): Execution
    requires i < |p.commands|
  {
    var w := x.world.(now := now);
    if p.cached && Hit(w, SlotAt(p, i), p.context) then Execution(w, x.hits + {i})
    else Execution(w.(disk := w.disk - {SlotAt(p, i)}), x.hits - {i})
  }

  function DoFinish(tools: Tools, p: Plan, x: Execution, i: nat, now: int): Execution
    requires i < |p.commands|
  {
    var w := x.world.(now := now);
    if i in x.hits then x.(world := w)
    else
      var (ok, ran) := RunOne(tools, w, SlotAt(p, i), p.context);
      x.(world := if ok && p.cached then Saved(ran, SlotAt(p, i), p.context) else ran)
  }

  function Apply(tools: Tools, p: Plan, x: Execution, e: S.Event, now: int): Execution {
    if e.i >= |p.commands| then x
    else match e
      case Start(i) => DoStart(p, x, i, now)
      case Finish(i, _) => DoFinish(tools, p, x, i, now)
  }

  function ApplyAll(tools: Tools, p: Plan, w: World, trace: seq<S.Event>, times: seq<int>): Execution
    requires |times| == |trace|
  {
    if trace == [] then Execution(w, {})
    else
      var n := |trace| - 1;
      Apply(tools, p, ApplyAll(tools, p, w, trace[..n], times[..n]), trace[n], times[n])
  }

  /** The verdict of a finish: a reused receipt, or what the command itself says. */
  predicate Verdict(tools: Tools, p: Plan, x: Execution, i: nat)
    requires i < |p.commands|
  {
    i in x.hits || Passes(tools, x.world, SlotAt(p, i), p.context)
  }

  ghost predicate CarriedOutAt(tools: Tools, p: Plan, w: World, trace: seq<S.Event>, times: seq<int>, q: nat)
    requires |times| == |trace|
  {
    q < |trace| && trace[q].i < |p.commands| &&
    (trace[q].Finish? ==> (trace[q].ok <==> Verdict(tools, p, ApplyAll(tools, p, w, trace[..q], times[..q]), trace[q].i)))
  }

  /** A run of the scheduler that has come to its end, and whose verdicts are those of the commands. */
  ghost predicate Executes(tools: Tools, p: Plan, w: World, jobs: nat, failing: set<nat>, trace: seq<S.Event>, times: seq<int>) {
    && |times| == |trace| && S.IsRun(S.JobsOf(p.commands), jobs, failing, trace)
    && (forall q | 0 <= q < |trace| :: CarriedOutAt(tools, p, w, trace, times, q))
    && S.After(trace).running == {}
    && (S.After(trace).failed == [] ==> forall i: nat | i < |p.commands| :: i in S.After(trace).done)
  }

  /** All that is asked: the condition of every command, and no backend-lane command that produces output. */
  ghost predicate Suited(tools: Tools, p: Plan) {
    forall i: nat | i < |p.commands| ::
      Exact(tools, SlotAt(p, i)) && (S.JobOf(p.commands[i]).backend ==> !Produces(SlotAt(p, i).command))
  }

  /** A start and its finish with nobody in between are one command run with receipts, or one forced run, which removes the
      receipt and writes none. */
  lemma StartAndFinish(tools: Tools, p: Plan, x: Execution, i: nat, now: int)
    requires i < |p.commands|
    ensures var begun := DoStart(p, x, i, now); var w := x.world.(now := now); var slot := SlotAt(p, i);
            if p.cached then (Verdict(tools, p, begun, i), DoFinish(tools, p, begun, i, now).world) == RunCached(tools, w, slot, p.context)
            else (Verdict(tools, p, begun, i), DoFinish(tools, p, begun, i, now).world) ==
                 RunOne(tools, w.(disk := w.disk - {slot}), slot, p.context)
  {
  }

  // ---------------------------------------------------------------- what every order comes to

  predicate Backend(p: Plan, i: nat)
    requires i < |p.commands|
  {
    S.JobOf(p.commands[i]).backend
  }

  function WithDist(w: World, dist: Option<string>): World {
    w.(dist := dist)
  }

  /** The output after the frontend commands among the first `k`, in list order; None when one of them fails. */
  function Frontend(tools: Tools, p: Plan, w: World, k: nat): Option<Option<string>>
    requires k <= |p.commands|
  {
    if k == 0 then Some(w.dist)
    else
      match Frontend(tools, p, w, k - 1)
      case None => None
      case Some(d) =>
        if Backend(p, k - 1) then Some(d)
        else if Passes(tools, WithDist(w, d), SlotAt(p, k - 1), p.context)
        then Some(Output(tools, WithDist(w, d), SlotAt(p, k - 1), p.context))
        else None
  }

  /** Every frontend command passes in its place, and every backend command passes. */
  ghost predicate Good(tools: Tools, p: Plan, w: World) {
    && Frontend(tools, p, w, |p.commands|).Some?
    && forall i: nat | i < |p.commands| && Backend(p, i) :: Passes(tools, w, SlotAt(p, i), p.context)
  }

  /** The verdict of a backend command is the same on every output, and a pass leaves the output alone. */
  lemma BackendIsSteady(tools: Tools, p: Plan, w: World, i: nat, d: Option<string>, d': Option<string>)
    requires Suited(tools, p) && i < |p.commands| && Backend(p, i)
    ensures Passes(tools, WithDist(w, d), SlotAt(p, i), p.context) == Passes(tools, WithDist(w, d'), SlotAt(p, i), p.context)
    ensures Passes(tools, WithDist(w, d), SlotAt(p, i), p.context) ==> Output(tools, WithDist(w, d), SlotAt(p, i), p.context) == d
  {
    var slot := SlotAt(p, i);
    var source := SourceOf(w.sources, slot.root);
    assert Vouches(tools, slot, source, p.context, d, d') && Vouches(tools, slot, source, p.context, d', d);
    assert Vouches(tools, slot, source, p.context, d, d);
  }

  lemma {:induction false} OnlyBackendBetween(tools: Tools, p: Plan, w: World, k: nat, m: nat)
    requires k <= m <= |p.commands| && forall i: nat | k <= i < m :: Backend(p, i)
    ensures Frontend(tools, p, w, m) == Frontend(tools, p, w, k)
    decreases m
  {
    if k < m { OnlyBackendBetween(tools, p, w, k, m - 1); }
  }

  lemma {:induction false} FailureIsFinal(tools: Tools, p: Plan, w: World, k: nat, m: nat)
    requires k <= m <= |p.commands| && Frontend(tools, p, w, k).None?
    ensures Frontend(tools, p, w, m).None?
    decreases m
  {
    if k < m { FailureIsFinal(tools, p, w, k, m - 1); }
  }

  // ---------------------------------------------------------------- while nothing has failed

  /** A command that is being run on the strength of a receipt would pass now, and change nothing. */
  ghost predicate HitsHold(tools: Tools, p: Plan, x: Execution, running: set<nat>) {
    forall i | i in x.hits && i in running ::
      i < |p.commands| && Passes(tools, x.world, SlotAt(p, i), p.context) && Output(tools, x.world, SlotAt(p, i), p.context) == x.world.dist
  }

  /** The first `k` commands of the frontend lane are done, and the output is theirs. */
  ghost predicate Reached(tools: Tools, p: Plan, w: World, x: Execution, done: set<nat>, k: nat) {
    && k <= |p.commands| && Frontend(tools, p, w, k) == Some(x.world.dist)
    && forall i: nat | i < |p.commands| && !Backend(p, i) :: i in done <==> i < k
  }

  ghost predicate Sound(tools: Tools, p: Plan, w: World, x: Execution, st: S.Status) {
    && x.world.sources == w.sources && DiskInv(tools, x.world.disk)
    && (forall i | i in st.done :: i < |p.commands| && (Backend(p, i) ==> Passes(tools, w, SlotAt(p, i), p.context)))
    && (exists k :: Reached(tools, p, w, x, st.done, k))
    && HitsHold(tools, p, x, st.running)
  }

  lemma StartStaysSound(tools: Tools, p: Plan, w: World, x: Execution, st: S.Status, i: nat, now: int)
    requires Suited(tools, p) && Sound(tools, p, w, x, st) && i < |p.commands| && i !in st.running
    ensures Sound(tools, p, w, DoStart(p, x, i, now), st.(running := st.running + {i}))
  {
    var y := DoStart(p, x, i, now);
    RemovedIsWritten(tools, x.world.disk, SlotAt(p, i));
    var k :| Reached(tools, p, w, x, st.done, k);
    assert Reached(tools, p, w, y, st.done, k);
    if p.cached && Hit(x.world.(now := now), SlotAt(p, i), p.context) {
      ReuseIsRunning(tools, x.world.(now := now), SlotAt(p, i), p.context);
    }
    forall j | j in y.hits && j in st.running + {i}
      ensures j < |p.commands| && Passes(tools, y.world, SlotAt(p, j), p.context)
              && Output(tools, y.world, SlotAt(p, j), p.context) == y.world.dist
    {
      if j in x.hits && j in st.running { assert Passes(tools, x.world, SlotAt(p, j), p.context); }
    }
  }

  /** What the scheduler guarantees of the commands under way. */
  ghost predicate InLanes(p: Plan, st: S.Status) {
    && st.running !! st.done
    && (forall i | i in st.running :: i < |p.commands|)
    && forall i, j: nat | i in st.running && j < i && i < |p.commands| && Backend(p, j) == Backend(p, i) :: j in st.done
  }

  lemma FinishKeepsDist(tools: Tools, p: Plan, w: World, x: Execution, st: S.Status, i: nat, now: int)
    requires Suited(tools, p) && Sound(tools, p, w, x, st) && i in st.running && i < |p.commands| && Backend(p, i)
    requires Verdict(tools, p, x, i)
    ensures DoFinish(tools, p, x, i, now).world.dist == x.world.dist && Passes(tools, w, SlotAt(p, i), p.context)
  {
    BackendIsSteady(tools, p, w, i, x.world.dist, w.dist);
    assert Passes(tools, WithDist(w, x.world.dist), SlotAt(p, i), p.context);
  }

  lemma FinishReaches(tools: Tools, p: Plan, w: World, x: Execution, st: S.Status, i: nat, now: int)
    requires Suited(tools, p) && Sound(tools, p, w, x, st) && InLanes(p, st) && i in st.running && Verdict(tools, p, x, i)
    ensures exists k :: Reached(tools, p, w, DoFinish(tools, p, x, i, now), st.done + {i}, k)
  {
    var y := DoFinish(tools, p, x, i, now);
    var k :| Reached(tools, p, w, x, st.done, k);
    if Backend(p, i) {
      FinishKeepsDist(tools, p, w, x, st, i, now);
      assert Reached(tools, p, w, y, st.done + {i}, k);
    } else {
      InItsPlace(tools, p, w, x, st, i, k);
      assert Passes(tools, WithDist(w, x.world.dist), SlotAt(p, i), p.context);
      assert Frontend(tools, p, w, i + 1) == Some(y.world.dist);
      assert Reached(tools, p, w, y, st.done + {i}, i + 1);
    }
  }

  /** A frontend command under way finds exactly the output of those before it. */
  lemma InItsPlace(tools: Tools, p: Plan, w: World, x: Execution, st: S.Status, i: nat, k: nat)
    requires InLanes(p, st) && i in st.running && i < |p.commands| && !Backend(p, i) && Reached(tools, p, w, x, st.done, k)
    ensures k <= i && (forall j: nat | k <= j < i :: Backend(p, j)) && Frontend(tools, p, w, i) == Some(x.world.dist)
  {
    OnlyBackendBetween(tools, p, w, k, i);
  }

  lemma FinishKeepsHits(tools: Tools, p: Plan, w: World, x: Execution, st: S.Status, i: nat, now: int)
    requires Suited(tools, p) && Sound(tools, p, w, x, st) && InLanes(p, st) && i in st.running && Verdict(tools, p, x, i)
    ensures HitsHold(tools, p, DoFinish(tools, p, x, i, now), st.running - {i})
  {
    var y := DoFinish(tools, p, x, i, now);
    if Backend(p, i) { FinishKeepsDist(tools, p, w, x, st, i, now); }
    forall j | j in y.hits && j in st.running - {i}
      ensures j < |p.commands| && Passes(tools, y.world, SlotAt(p, j), p.context)
              && Output(tools, y.world, SlotAt(p, j), p.context) == y.world.dist
    {
      assert Passes(tools, x.world, SlotAt(p, j), p.context);
      if !Backend(p, i) {
        assert Backend(p, j);
        BackendIsSteady(tools, p, w, j, x.world.dist, y.world.dist);
        assert Passes(tools, WithDist(w, x.world.dist), SlotAt(p, j), p.context);
        assert Passes(tools, WithDist(w, y.world.dist), SlotAt(p, j), p.context);
        BackendIsSteady(tools, p, w, j, y.world.dist, y.world.dist);
      }
    }
  }

  lemma FinishKeepsDisk(tools: Tools, p: Plan, x: Execution, i: nat, now: int)
    requires i < |p.commands| && DiskInv(tools, x.world.disk)
    ensures DiskInv(tools, DoFinish(tools, p, x, i, now).world.disk)
  {
    var w := x.world.(now := now);
    if Passes(tools, w, SlotAt(p, i), p.context) { SavedIsWritten(tools, w, SlotAt(p, i), p.context); }
  }

  lemma FinishStaysSound(tools: Tools, p: Plan, w: World, x: Execution, st: S.Status, i: nat, now: int)
    requires Suited(tools, p) && Sound(tools, p, w, x, st) && InLanes(p, st) && i in st.running && Verdict(tools, p, x, i)
    ensures Sound(tools, p, w, DoFinish(tools, p, x, i, now), st.(running := st.running - {i}, done := st.done + {i}))
  {
    FinishKeepsDisk(tools, p, x, i, now);
    FinishReaches(tools, p, w, x, st, i, now);
    FinishKeepsHits(tools, p, w, x, st, i, now);
    if Backend(p, i) { FinishKeepsDist(tools, p, w, x, st, i, now); }
  }

  /** The first command to fail fails in every order. */
  lemma FailureIsBad(tools: Tools, p: Plan, w: World, x: Execution, st: S.Status, i: nat)
    requires Suited(tools, p) && Sound(tools, p, w, x, st) && InLanes(p, st) && i in st.running && !Verdict(tools, p, x, i)
    ensures !Good(tools, p, w)
  {
    assert !Passes(tools, WithDist(w, x.world.dist), SlotAt(p, i), p.context);
    if Backend(p, i) {
      BackendIsSteady(tools, p, w, i, x.world.dist, w.dist);
      assert !Passes(tools, WithDist(w, w.dist), SlotAt(p, i), p.context);
    } else {
      var k :| Reached(tools, p, w, x, st.done, k);
      InItsPlace(tools, p, w, x, st, i, k);
      assert Frontend(tools, p, w, i + 1).None?;
      FailureIsFinal(tools, p, w, i + 1, |p.commands|);
    }
  }

  // ---------------------------------------------------------------- whole executions

  ghost predicate CarriedOut(tools: Tools, p: Plan, w: World, jobs: nat, failing: set<nat>, trace: seq<S.Event>, times: seq<int>) {
    && |times| == |trace| && S.IsRun(S.JobsOf(p.commands), jobs, failing, trace)
    && forall q | 0 <= q < |trace| :: CarriedOutAt(tools, p, w, trace, times, q)
  }

  lemma PrefixCarriedOut(tools: Tools, p: Plan, w: World, jobs: nat, failing: set<nat>, trace: seq<S.Event>, times: seq<int>, n: nat)
    requires CarriedOut(tools, p, w, jobs, failing, trace, times) && n <= |trace|
    ensures CarriedOut(tools, p, w, jobs, failing, trace[..n], times[..n])
  {
    S.PrefixIsRun(S.JobsOf(p.commands), jobs, failing, trace, n);
    forall q | 0 <= q < n ensures CarriedOutAt(tools, p, w, trace[..n], times[..n], q) {
      assert CarriedOutAt(tools, p, w, trace, times, q);
      assert trace[..n][..q] == trace[..q] && times[..n][..q] == times[..q];
    }
  }

  lemma LanesHold(p: Plan, jobs: nat, failing: set<nat>, trace: seq<S.Event>)
    requires S.IsRun(S.JobsOf(p.commands), jobs, failing, trace)
    ensures InLanes(p, S.After(trace))
  {
    var cs, st := S.JobsOf(p.commands), S.After(trace);
    S.AtMostJobs(cs, jobs, failing, trace);
    S.LanesKeepOrder(cs, jobs, failing, trace);
    RunningInList(p, jobs, failing, trace);
    forall i, j: nat | i in st.running && j < i && i < |p.commands| && Backend(p, j) == Backend(p, i) ensures j in st.done {
      assert S.Begun(st, i) && S.SameLane(cs, j, i);
      assert S.LaneDone(cs, st, i);
    }
  }

  lemma {:induction false} RunningInList(p: Plan, jobs: nat, failing: set<nat>, trace: seq<S.Event>)
    requires S.IsRun(S.JobsOf(p.commands), jobs, failing, trace)
    ensures forall i | i in S.After(trace).running :: i < |p.commands|
    decreases |trace|
  {
    if trace != [] {
      var n := |trace| - 1;
      S.PrefixIsRun(S.JobsOf(p.commands), jobs, failing, trace, n);
      RunningInList(p, jobs, failing, trace[..n]);
      assert S.AllowedAt(S.JobsOf(p.commands), jobs, failing, trace, n);
    }
  }

  /** As long as nothing has failed the execution is sound; once something has, no order could have passed. */
  lemma {:induction false} SoundOrBad(tools: Tools, p: Plan, w: World, jobs: nat, failing: set<nat>, trace: seq<S.Event>, times: seq<int>)
    requires Suited(tools, p) && DiskInv(tools, w.disk) && CarriedOut(tools, p, w, jobs, failing, trace, times)
    ensures if S.After(trace).failed == [] then Sound(tools, p, w, ApplyAll(tools, p, w, trace, times), S.After(trace))
            else !Good(tools, p, w)
    decreases |trace|
  {
    if trace == [] {
      assert Reached(tools, p, w, Execution(w, {}), {}, 0);
    } else {
      var n := |trace| - 1;
      PrefixCarriedOut(tools, p, w, jobs, failing, trace, times, n);
      SoundOrBad(tools, p, w, jobs, failing, trace[..n], times[..n]);
      if S.After(trace[..n]).failed == [] {
        OneMore(tools, p, w, jobs, failing, trace, times);
      }
    }
  }

  lemma OneMore(tools: Tools, p: Plan, w: World, jobs: nat, failing: set<nat>, trace: seq<S.Event>, times: seq<int>)
    requires Suited(tools, p) && trace != [] && CarriedOut(tools, p, w, jobs, failing, trace, times)
    requires var n := |trace| - 1;
             S.After(trace[..n]).failed == [] && Sound(tools, p, w, ApplyAll(tools, p, w, trace[..n], times[..n]), S.After(trace[..n]))
    ensures if S.After(trace).failed == [] then Sound(tools, p, w, ApplyAll(tools, p, w, trace, times), S.After(trace))
            else !Good(tools, p, w)
  {
    var n := |trace| - 1;
    var x, st, e, now := ApplyAll(tools, p, w, trace[..n], times[..n]), S.After(trace[..n]), trace[n], times[n];
    assert CarriedOutAt(tools, p, w, trace, times, n);
    assert S.AllowedAt(S.JobsOf(p.commands), jobs, failing, trace, n);
    S.PrefixIsRun(S.JobsOf(p.commands), jobs, failing, trace, n);
    LanesHold(p, jobs, failing, trace[..n]);
    hide Sound, Suited, InLanes, Good, S.IsRun, S.Needs, DoStart, DoFinish, Verdict;
    match e
    case Start(i) => StartStaysSound(tools, p, w, x, st, i, now);
    case Finish(i, ok) =>
      if ok { FinishStaysSound(tools, p, w, x, st, i, now); } else { FailureIsBad(tools, p, w, x, st, i); }
  }

  /** An execution passes exactly when every frontend command passes in its place and every backend command passes,
      and then leaves the output of the frontend commands in list order. */
  lemma OrderDoesNotMatter(tools: Tools, p: Plan, w: World, jobs: nat, failing: set<nat>, trace: seq<S.Event>, times: seq<int>)
    requires Suited(tools, p) && DiskInv(tools, w.disk) && Executes(tools, p, w, jobs, failing, trace, times)
    ensures S.After(trace).failed == [] <==> Good(tools, p, w)
    ensures S.After(trace).failed == [] ==>
              Frontend(tools, p, w, |p.commands|) == Some(ApplyAll(tools, p, w, trace, times).world.dist)
  {
    SoundOrBad(tools, p, w, jobs, failing, trace, times);
    if S.After(trace).failed == [] {
      var x := ApplyAll(tools, p, w, trace, times);
      var k :| Reached(tools, p, w, x, S.After(trace).done, k);
      OnlyBackendBetween(tools, p, w, k, |p.commands|);
    }
  }

  lemma {:induction false} FrontendOfEither(tools: Tools, p: Plan, w: World, cached: bool, k: nat)
    requires k <= |p.commands|
    ensures Frontend(tools, p.(cached := cached), w, k) == Frontend(tools, p, w, k)
    decreases k
  {
    if k > 0 { FrontendOfEither(tools, p, w, cached, k - 1); }
  }

  lemma GoodEither(tools: Tools, p: Plan, w: World, cached: bool)
    ensures Good(tools, p.(cached := cached), w) <==> Good(tools, p, w)
    ensures Suited(tools, p.(cached := cached)) <==> Suited(tools, p)
  {
    FrontendOfEither(tools, p, w, cached, |p.commands|);
    assert forall i: nat | i < |p.commands| ::
        SlotAt(p.(cached := cached), i) == SlotAt(p, i) && Backend(p.(cached := cached), i) == Backend(p, i);
  }

  /** For every list, any numbers of jobs and any two orders the scheduler allows: an execution with receipts and a
      forced one give the same verdict, and leave the same output when they pass. */
  lemma CachedEqualsUncached(tools: Tools, p: Plan, w: World,
                             jobs: nat, failing: set<nat>, trace: seq<S.Event>, times: seq<int>,
                             jobs': nat, failing': set<nat>, trace': seq<S.Event>, times': seq<int>)
    requires Suited(tools, p) && DiskInv(tools, w.disk)
    requires Executes(tools, p.(cached := true), w, jobs, failing, trace, times)
    requires Executes(tools, p.(cached := false), w, jobs', failing', trace', times')
    ensures S.After(trace).failed == [] <==> S.After(trace').failed == []
    ensures S.After(trace).failed == [] ==>
              ApplyAll(tools, p.(cached := true), w, trace, times).world.dist ==
              ApplyAll(tools, p.(cached := false), w, trace', times').world.dist
  {
    hide Suited, Good, Executes, ApplyAll, S.After;
    GoodEither(tools, p, w, true);
    GoodEither(tools, p, w, false);
    FrontendOfEither(tools, p, w, true, |p.commands|);
    FrontendOfEither(tools, p, w, false, |p.commands|);
    OrderDoesNotMatter(tools, p.(cached := true), w, jobs, failing, trace, times);
    OrderDoesNotMatter(tools, p.(cached := false), w, jobs', failing', trace', times');
  }

  // ---------------------------------------------------------------- there are such executions

  lemma AddEvent(tools: Tools, p: Plan, w: World, jobs: nat, failing: set<nat>, trace: seq<S.Event>, times: seq<int>, e: S.Event, now: int)
    requires CarriedOut(tools, p, w, jobs, failing, trace, times) && e.i < |p.commands|
    requires S.Allowed(S.JobsOf(p.commands), jobs, failing, S.After(trace), e)
    requires e.Finish? ==> (e.ok <==> Verdict(tools, p, ApplyAll(tools, p, w, trace, times), e.i))
    ensures CarriedOut(tools, p, w, jobs, failing, trace + [e], times + [now])
    ensures (trace + [e])[..|trace|] == trace && (trace + [e])[|trace|] == e
  {
    S.Extend(S.JobsOf(p.commands), jobs, failing, trace, e);
    var longer, later := trace + [e], times + [now];
    forall q | 0 <= q < |longer| ensures CarriedOutAt(tools, p, w, longer, later, q) {
      if q < |trace| {
        assert CarriedOutAt(tools, p, w, trace, times, q);
        assert longer[..q] == trace[..q] && later[..q] == times[..q];
      } else {
        assert longer[..q] == trace && later[..q] == times;
      }
    }
  }

  /** Commands that have not finished yet may still turn out to fail. */
  lemma FailingLater(tools: Tools, p: Plan, w: World, jobs: nat, trace: seq<S.Event>, times: seq<int>, k: nat)
    requires CarriedOut(tools, p, w, jobs, {}, trace, times)
    requires forall q | 0 <= q < |trace| && trace[q].Finish? :: trace[q].i < k
    ensures CarriedOut(tools, p, w, jobs, {k}, trace, times)
  {
    var cs := S.JobsOf(p.commands);
    forall q | 0 <= q < |trace| ensures S.AllowedAt(cs, jobs, {k}, trace, q) {
      assert S.AllowedAt(cs, jobs, {}, trace, q);
    }
  }

  lemma StartNext(tools: Tools, p: Plan, w: World, jobs: nat, trace: seq<S.Event>, times: seq<int>, k: nat)
    requires jobs >= 1 && k < |p.commands| && CarriedOut(tools, p, w, jobs, {}, trace, times)
    requires S.After(trace) == S.Status({}, S.Below(k), [])
    ensures CarriedOut(tools, p, w, jobs, {}, trace + [S.Start(k)], times + [0])
    ensures S.After(trace + [S.Start(k)]) == S.Status({k}, S.Below(k), [])
  {
    hide Verdict, S.JobOf;
    AddEvent(tools, p, w, jobs, {}, trace, times, S.Start(k), 0);
  }

  lemma FinishNext(tools: Tools, p: Plan, w: World, jobs: nat, failing: set<nat>, trace: seq<S.Event>, times: seq<int>, k: nat, ok: bool)
    requires k < |p.commands| && CarriedOut(tools, p, w, jobs, failing, trace, times)
    requires S.After(trace) == S.Status({k}, S.Below(k), [])
    requires (ok <==> k !in failing) && (ok <==> Verdict(tools, p, ApplyAll(tools, p, w, trace, times), k))
    ensures CarriedOut(tools, p, w, jobs, failing, trace + [S.Finish(k, ok)], times + [0])
    ensures S.After(trace + [S.Finish(k, ok)]) == if ok then S.Status({}, S.Below(k + 1), []) else S.Status({}, S.Below(k), [k])
  {
    hide Verdict, S.JobOf;
    AddEvent(tools, p, w, jobs, failing, trace, times, S.Finish(k, ok), 0);
    assert S.Below(k) + {k} == S.Below(k + 1);
  }

  lemma AtItsEnd(tools: Tools, p: Plan, w: World, jobs: nat, failing: set<nat>, trace: seq<S.Event>, times: seq<int>)
    requires CarriedOut(tools, p, w, jobs, failing, trace, times) && S.After(trace).running == {}
    requires S.After(trace).failed != [] || S.After(trace).done == S.Below(|p.commands|)
    ensures Executes(tools, p, w, jobs, failing, trace, times)
  {
  }

  /** Every plan has an execution, for any number of jobs: one command after the other. */
  lemma SomeExecution(tools: Tools, p: Plan, w: World, jobs: nat) returns (failing: set<nat>, trace: seq<S.Event>, times: seq<int>)
    requires jobs >= 1
    ensures Executes(tools, p, w, jobs, failing, trace, times)
  {
    hide ApplyAll, Verdict, CarriedOut, Executes, S.After;
    failing, trace, times := {}, [], [];
    assert CarriedOut(tools, p, w, jobs, {}, [], []) && S.After([]) == S.Status({}, S.Below(0), []) by { NothingYet(tools, p, w, jobs); }
    var k: nat := 0;
    while k < |p.commands|
      invariant k <= |p.commands| && failing == {} && |times| == |trace| && CarriedOut(tools, p, w, jobs, {}, trace, times)
      invariant S.After(trace) == S.Status({}, S.Below(k), [])
      invariant forall q | 0 <= q < |trace| :: trace[q].i < k
    {
      StartNext(tools, p, w, jobs, trace, times, k);
      trace, times := trace + [S.Start(k)], times + [0];
      var ok := Verdict(tools, p, ApplyAll(tools, p, w, trace, times), k);
      if !ok {
        FailingLater(tools, p, w, jobs, trace, times, k);
        failing := {k};
      }
      FinishNext(tools, p, w, jobs, failing, trace, times, k, ok);
      trace, times := trace + [S.Finish(k, ok)], times + [0];
      if !ok {
        AtItsEnd(tools, p, w, jobs, failing, trace, times);
        return;
      }
      k := k + 1;
    }
    AtItsEnd(tools, p, w, jobs, failing, trace, times);
  }

  lemma NothingYet(tools: Tools, p: Plan, w: World, jobs: nat)
    ensures CarriedOut(tools, p, w, jobs, {}, [], []) && S.After([]) == S.Status({}, S.Below(0), [])
  {
  }
}
