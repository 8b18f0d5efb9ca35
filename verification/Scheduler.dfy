/**
 Running verification commands in two lanes with at most `jobs` at a time: the dependencies between
 commands, the rounds of starting and waiting, and what every run guarantees.

 Command i fails exactly when i is in `failing`; which running commands a wait returns, and in which
 order, is left open.
 */
module Scheduler {
  import opened Wrappers

  type Command = seq<string>

  /** All the scheduler looks at: the lane of a command, and whether it packages. */
  datatype Job = Job(backend: bool, packages: bool)

  function JobOf(c: Command): Job {
    Job(c[..if |c| < 1 then |c| else 1] == ["make"] && "-C" !in c && ("backend-test" in c || "deployment-check" in c),
        "frontend-package-verified" in c)
  }

  function JobsOf(commands: seq<Command>): seq<Job> {
    seq(|commands|, i requires 0 <= i < |commands| => JobOf(commands[i]))
  }

  predicate SameLane(cs: seq<Job>, i: nat, j: nat) {
    i < |cs| && j < |cs| && cs[i].backend == cs[j].backend
  }

  /** `j` comes right before `i` in their lane. */
  predicate JustBefore(cs: seq<Job>, j: nat, i: nat) {
    j < i < |cs| && SameLane(cs, j, i) && forall k | j < k < i :: !SameLane(cs, k, i)
  }

  /** What command `i` waits for. */
  predicate Needs(cs: seq<Job>, i: nat, j: nat) {
    j < i < |cs| && (cs[i].packages || JustBefore(cs, j, i))
  }

  ghost predicate NeedsExactly(cs: seq<Job>, i: nat, required: set<nat>) {
    forall j: nat :: j in required <==> Needs(cs, i, j)
  }

  /** range(n) */
  function Below(n: nat): (s: set<nat>)
    ensures forall j: nat :: j in s <==> j < n
  {
    if n == 0 then {} else Below(n - 1) + {n - 1}
  }

  /** `last` holds the last command of each lane among the first `index`. */
  ghost predicate LastOfLanes(cs: seq<Job>, last: map<bool, nat>, index: nat)
    requires index <= |cs|
  {
    && (forall lane | lane in last :: last[lane] < index && cs[last[lane]].backend == lane)
    && (forall k: nat | k < index :: cs[k].backend in last && k <= last[cs[k].backend])
  }

  lemma NoLanesYet(cs: seq<Job>)
    ensures LastOfLanes(cs, map[], 0)
  {
  }

  lemma LastIsJustBefore(cs: seq<Job>, last: map<bool, nat>, index: nat)
    requires index < |cs| && LastOfLanes(cs, last, index)
    ensures var lane := cs[index].backend;
            forall j: nat :: JustBefore(cs, j, index) <==> lane in last && j == last[lane]
  {
    var lane := cs[index].backend;
    if lane in last { assert JustBefore(cs, last[lane], index); }
    forall j: nat | JustBefore(cs, j, index) ensures lane in last && j == last[lane] {
      assert SameLane(cs, j, index);
      assert SameLane(cs, last[lane], index);
    }
  }

  lemma OneMoreCommand(cs: seq<Job>, last: map<bool, nat>, index: nat)
    requires index < |cs| && LastOfLanes(cs, last, index)
    ensures var lane := cs[index].backend;
            && LastOfLanes(cs, last[lane := index], index + 1)
            && NeedsExactly(cs, index, (if lane in last then {last[lane]} else {}) + if cs[index].packages then Below(index) else {})
  {
    LastIsJustBefore(cs, last, index);
  }

  const FULL: seq<Command> := [
    ["make", "backend-test"], ["make", "project-brand"], ["make", "-C", "src/frontend", "test-ui"],
    ["make", "-C", "src/frontend", "test-production"], ["make", "project-build-test"], ["make", "frontend-package-verified"]]

  /** The commands of one full verification: the backend tests stand alone, the others go one by one, and
      packaging waits for all. */
  lemma FullVerification(i: nat, j: nat)
    ensures Needs(JobsOf(FULL), i, j) <==> (2 <= i <= 4 && j == i - 1) || (i == 5 && j < 5)
  {
    hide JobOf;
    var cs := JobsOf(FULL);
    forall k | 0 <= k < 6 ensures cs[k] == Job(k == 0, k == 5) { FullJob(k); }
    if i < 6 {
      assert cs[i] == Job(i == 0, i == 5);
      if i > 1 { assert SameLane(cs, i - 1, i); }
      if i > 0 { assert !SameLane(cs, 0, i); }
    }
  }

  lemma FullJob(k: nat)
    requires k < 6
    ensures JobOf(FULL[k]) == Job(k == 0, k == 5)
  {
    assert FULL[k][..1] == ["make"];
  }

  method Dependencies(cs: seq<Job>) returns (required: seq<set<nat>>)
    ensures |required| == |cs|
    ensures forall i | 0 <= i < |cs| :: NeedsExactly(cs, i, required[i])
  {
    hide NeedsExactly, LastOfLanes;
    NoLanesYet(cs);
    var last: map<bool, nat> := map[];
    required := [];
    for index := 0 to |cs|
      invariant |required| == index && LastOfLanes(cs, last, index)
      invariant forall i | 0 <= i < index :: NeedsExactly(cs, i, required[i])
    {
      var lane := cs[index].backend;
      OneMoreCommand(cs, last, index);
      var needed: set<nat> := if lane in last then {last[lane]} else {};
      needed := needed + if cs[index].packages then Below(index) else {};
      required := required + [needed];
      last := last[lane := index];
    }
  }

  // ---------------------------------------------------------------- what a run is

  datatype Event = Start(i: nat) | Finish(i: nat, ok: bool)

  datatype Status = Status(running: set<nat>, done: set<nat>, failed: seq<nat>)

  function After(trace: seq<Event>): Status {
    if trace == [] then Status({}, {}, [])
    else
      var st := After(trace[..|trace| - 1]);
      match trace[|trace| - 1]
      case Start(i) => st.(running := st.running + {i})
      case Finish(i, ok) =>
        if ok then st.(running := st.running - {i}, done := st.done + {i})
        else st.(running := st.running - {i}, failed := st.failed + [i])
  }

  predicate Begun(st: Status, i: nat) {
    i in st.running || i in st.done || i in st.failed
  }

  ghost predicate Allowed(cs: seq<Job>, jobs: nat, failing: set<nat>, st: Status, e: Event) {
    match e
    case Start(i) =>
      && i < |cs| && !Begun(st, i) && |st.running| < jobs && st.failed == []
      && forall j | Needs(cs, i, j) :: j in st.done
    case Finish(i, ok) => i in st.running && (ok <==> i !in failing)
  }

  ghost predicate AllowedAt(cs: seq<Job>, jobs: nat, failing: set<nat>, trace: seq<Event>, p: nat) {
    p < |trace| && Allowed(cs, jobs, failing, After(trace[..p]), trace[p])
  }

  ghost predicate IsRun(cs: seq<Job>, jobs: nat, failing: set<nat>, trace: seq<Event>) {
    forall p | 0 <= p < |trace| :: AllowedAt(cs, jobs, failing, trace, p)
  }

  datatype Outcome = Passed | Failed(command: nat) | BadJobs | Unresolved

  lemma Smallest(s: set<nat>) returns (m: nat)
    requires s != {}
    ensures m in s && forall x | x in s :: m <= x
  {
    m :| m in s;
    if s != {m} {
      assert s == (s - {m}) + {m};
      var r := Smallest(s - {m});
      assert forall x | x in s :: x == m || r <= x;
      if r < m { m := r; }
    }
  }

  lemma Extend(cs: seq<Job>, jobs: nat, failing: set<nat>, trace: seq<Event>, e: Event)
    requires IsRun(cs, jobs, failing, trace) && Allowed(cs, jobs, failing, After(trace), e)
    ensures IsRun(cs, jobs, failing, trace + [e])
    ensures (trace + [e])[..|trace|] == trace && (trace + [e])[|trace|] == e
  {
    var longer := trace + [e];
    assert longer[..|trace|] == trace;
    forall p | 0 <= p < |longer| ensures AllowedAt(cs, jobs, failing, longer, p) {
      if p < |trace| {
        assert longer[..p] == trace[..p];
        assert AllowedAt(cs, jobs, failing, trace, p);
      }
    }
  }

  /** Where a run stands between two rounds. */
  ghost predicate Standing(cs: seq<Job>, jobs: nat, failing: set<nat>, trace: seq<Event>,
                           pending: set<nat>, st: Status) {
    IsRun(cs, jobs, failing, trace) && st == After(trace) && Sorted(cs, jobs, failing, pending, st)
  }

  /** Every command is pending, running, done or failed, and only the right ones fail. */
  ghost predicate Sorted(cs: seq<Job>, jobs: nat, failing: set<nat>, pending: set<nat>, st: Status) {
    && (forall i | i in pending :: i < |cs| && !Begun(st, i))
    && (forall i: nat | i < |cs| :: i in pending || Begun(st, i))
    && (forall i | i in st.running :: i < |cs|) && |st.running| <= jobs
    && (forall i | i in st.done :: i < |cs| && i !in failing)
    && (forall i | i in st.failed :: i < |cs| && i in failing)
  }

  lemma StartKeeps(cs: seq<Job>, jobs: nat, failing: set<nat>, trace: seq<Event>, pending: set<nat>, st: Status, i: nat)
    requires Standing(cs, jobs, failing, trace, pending, st) && i in pending && |st.running| < jobs && st.failed == []
    requires forall j | Needs(cs, i, j) :: j in st.done
    ensures Standing(cs, jobs, failing, trace + [Start(i)], pending - {i}, st.(running := st.running + {i}))
  {
    Extend(cs, jobs, failing, trace, Start(i));
    assert |st.running + {i}| == |st.running| + 1;
  }

  lemma FinishKeeps(cs: seq<Job>, jobs: nat, failing: set<nat>, trace: seq<Event>, pending: set<nat>, st: Status, i: nat)
    requires Standing(cs, jobs, failing, trace, pending, st) && i in st.running
    ensures var ok := i !in failing;
            Standing(cs, jobs, failing, trace + [Finish(i, ok)], pending,
                     Status(st.running - {i}, if ok then st.done + {i} else st.done, if ok then st.failed else st.failed + [i]))
  {
    Extend(cs, jobs, failing, trace, Finish(i, i !in failing));
    assert |st.running - {i}| == |st.running| - 1;
  }

  /** When nothing runs and nothing failed, the first pending command has all it needs. */
  lemma SomethingIsReady(cs: seq<Job>, jobs: nat, failing: set<nat>, required: seq<set<nat>>, trace: seq<Event>,
                         pending: set<nat>, st: Status)
    returns (m: nat)
    requires Standing(cs, jobs, failing, trace, pending, st) && st.running == {} && st.failed == [] && pending != {}
    requires |required| == |cs| && forall i | 0 <= i < |cs| :: NeedsExactly(cs, i, required[i])
    ensures m in pending && required[m] <= st.done
  {
    m := Smallest(pending);
    assert NeedsExactly(cs, m, required[m]);
    forall j: nat | j in required[m] ensures j in st.done {
      assert Needs(cs, m, j);
      assert j in pending || Begun(st, j);
    }
  }

  /** At the end everything has passed, or the first failure is reported. */
  lemma Verdict(cs: seq<Job>, jobs: nat, failing: set<nat>, trace: seq<Event>, pending: set<nat>, st: Status)
    requires Standing(cs, jobs, failing, trace, pending, st) && st.running == {} && (st.failed != [] || pending == {})
    ensures IsRun(cs, jobs, failing, trace) && st == After(trace)
    ensures st.failed == [] <==> forall i: nat | i < |cs| :: i !in failing
    ensures st.failed == [] ==> forall i: nat | i < |cs| :: i in st.done
  {
    if st.failed != [] { assert st.failed[0] in st.failed; }
  }

  lemma NothingRunYet(cs: seq<Job>, jobs: nat, failing: set<nat>)
    ensures Standing(cs, jobs, failing, [], Below(|cs|), Status({}, {}, []))
  {
  }

  method Execute(commands: seq<Command>, jobs: nat, failing: set<nat>) returns (outcome: Outcome, trace: seq<Event>)
    ensures jobs < 1 ==> outcome == BadJobs && trace == []
    ensures jobs >= 1 ==>
              && IsRun(JobsOf(commands), jobs, failing, trace) && After(trace).running == {}
              && (outcome == Passed <==> forall i: nat | i < |commands| :: i !in failing)
              && (outcome == Passed ==> forall i: nat | i < |commands| :: i in After(trace).done)
              && (outcome != Passed ==> After(trace).failed != [] && outcome == Failed(After(trace).failed[0]))
  {
    hide NeedsExactly, IsRun, Standing, After, JobOf;
    NothingRunYet(JobsOf(commands), jobs, failing);
    if jobs < 1 {
      return BadJobs, [];
    }
    if commands == [] {
      return Passed, [];
    }
    var cs := JobsOf(commands);
    var required := Dependencies(cs);
    trace := [];
    var pending := Below(|cs|);
    var st := Status({}, {}, []);
    while pending != {} || st.running != {}
      invariant Standing(cs, jobs, failing, trace, pending, st)
      decreases pending, st.running
    {
      trace, pending, st := StartReady(cs, jobs, failing, required, trace, pending, st);
      if st.running == {} {
        break;
      }
      var batch :| batch <= st.running && batch != {};
      trace, st := Drain(cs, jobs, failing, trace, pending, st, batch);
    }
    if pending == {} || st.failed != [] {
      Verdict(cs, jobs, failing, trace, pending, st);
    }
    if st.failed != [] {
      return Failed(st.failed[0]), trace;
    }
    if pending != {} {
      assert false;
      return Unresolved, trace;
    }
    return Passed, trace;
  }

  /** One pass over the pending commands in order. */
  method StartReady(cs: seq<Job>, jobs: nat, failing: set<nat>, required: seq<set<nat>>,
                    trace0: seq<Event>, pending0: set<nat>, st0: Status)
    returns (trace: seq<Event>, pending: set<nat>, st: Status)
    requires jobs >= 1 && Standing(cs, jobs, failing, trace0, pending0, st0)
    requires |required| == |cs| && forall i | 0 <= i < |cs| :: NeedsExactly(cs, i, required[i])
    ensures Standing(cs, jobs, failing, trace, pending, st) && pending <= pending0
    ensures st.done == st0.done && st.failed == st0.failed
    ensures pending == pending0 ==> st == st0
    ensures st.running == {} ==> pending == pending0 && (pending == {} || st.failed != [])
  {
    trace, pending, st := trace0, pending0, st0;
    var index := 0;
    while index < |cs|
      invariant index <= |cs| && Standing(cs, jobs, failing, trace, pending, st) && pending <= pending0
      invariant st.done == st0.done && st.failed == st0.failed
      invariant pending == pending0 || st.running != {}
      invariant pending == pending0 ==> st == st0
      invariant forall i | i in pending && i < index :: !(required[i] <= st.done)
    {
      if index in pending {
        if |st.running| >= jobs || st.failed != [] {
          break;
        }
        if required[index] <= st.done {
          assert NeedsExactly(cs, index, required[index]);
          StartKeeps(cs, jobs, failing, trace, pending, st, index);
          trace := trace + [Start(index)];
          st := st.(running := st.running + {index});
          pending := pending - {index};
        }
      }
      index := index + 1;
    }
    if st.running == {} && pending != {} && st.failed == [] {
      var m := SomethingIsReady(cs, jobs, failing, required, trace, pending, st);
      assert false;
    }
  }

  /** Collects the finished commands of one wait. */
  method Drain(cs: seq<Job>, jobs: nat, failing: set<nat>, trace0: seq<Event>, pending: set<nat>, st0: Status, batch: set<nat>)
    returns (trace: seq<Event>, st: Status)
    requires Standing(cs, jobs, failing, trace0, pending, st0) && batch <= st0.running && batch != {}
    ensures Standing(cs, jobs, failing, trace, pending, st) && st.running == st0.running - batch
  {
    hide IsRun, After, Needs;
    trace, st := trace0, st0;
    var left := batch;
    while left != {}
      invariant Standing(cs, jobs, failing, trace, pending, st)
      invariant left <= batch && st.running == st0.running - (batch - left)
      decreases left
    {
      var i :| i in left;
      var ok := i !in failing;
      FinishKeeps(cs, jobs, failing, trace, pending, st, i);
      trace := trace + [Finish(i, ok)];
      st := if ok then st.(running := st.running - {i}, done := st.done + {i})
            else st.(running := st.running - {i}, failed := st.failed + [i]);
      left := left - {i};
    }
  }

  // ---------------------------------------------------------------- what every run guarantees

  lemma PrefixIsRun(cs: seq<Job>, jobs: nat, failing: set<nat>, trace: seq<Event>, p: nat)
    requires IsRun(cs, jobs, failing, trace) && p <= |trace|
    ensures IsRun(cs, jobs, failing, trace[..p])
  {
    forall q | 0 <= q < |trace[..p]| ensures AllowedAt(cs, jobs, failing, trace[..p], q) {
      assert trace[..p][..q] == trace[..q];
      assert AllowedAt(cs, jobs, failing, trace, q);
    }
  }

  /** Never more than `jobs` at a time, and no command in two places. */
  lemma {:induction false} AtMostJobs(cs: seq<Job>, jobs: nat, failing: set<nat>, trace: seq<Event>)
    requires IsRun(cs, jobs, failing, trace)
    ensures var st := After(trace);
            && |st.running| <= jobs && st.running !! st.done
            && forall i | i in st.failed :: i !in st.running && i !in st.done
    decreases |trace|
  {
    if trace != [] {
      var n := |trace| - 1;
      PrefixIsRun(cs, jobs, failing, trace, n);
      AtMostJobs(cs, jobs, failing, trace[..n]);
      assert AllowedAt(cs, jobs, failing, trace, n);
      var st := After(trace[..n]);
      if trace[n].Finish? { assert |st.running - {trace[n].i}| == |st.running| - 1; }
    }
  }

  /** A lane with an earlier command has one right before. */
  lemma JustBeforeExists(cs: seq<Job>, k: nat, i: nat) returns (j: nat)
    requires k < i && SameLane(cs, k, i)
    ensures JustBefore(cs, j, i) && k <= j && SameLane(cs, k, j)
    decreases i - k
  {
    if l: nat :| k < l < i && SameLane(cs, l, i) {
      j := JustBeforeExists(cs, l, i);
    } else {
      j := k;
    }
  }

  /** Whatever has begun has all earlier commands of its lane done. */
  ghost predicate LaneDone(cs: seq<Job>, st: Status, i: nat) {
    forall k: nat | k < i && SameLane(cs, k, i) :: k in st.done
  }

  lemma StartHasLaneDone(cs: seq<Job>, jobs: nat, failing: set<nat>, st: Status, i: nat)
    requires Allowed(cs, jobs, failing, st, Start(i))
    requires forall k | Begun(st, k) :: LaneDone(cs, st, k)
    ensures LaneDone(cs, st, i)
  {
    forall k: nat | k < i && SameLane(cs, k, i) ensures k in st.done {
      var j := JustBeforeExists(cs, k, i);
      assert Needs(cs, i, j) && Begun(st, j);
      assert LaneDone(cs, st, j);
    }
  }

  lemma {:induction false} LanesKeepOrder(cs: seq<Job>, jobs: nat, failing: set<nat>, trace: seq<Event>)
    requires IsRun(cs, jobs, failing, trace)
    ensures forall i | Begun(After(trace), i) :: LaneDone(cs, After(trace), i)
    decreases |trace|
  {
    if trace != [] {
      var n := |trace| - 1;
      PrefixIsRun(cs, jobs, failing, trace, n);
      LanesKeepOrder(cs, jobs, failing, trace[..n]);
      assert AllowedAt(cs, jobs, failing, trace, n);
      var st, st' := After(trace[..n]), After(trace);
      if trace[n].Start? { StartHasLaneDone(cs, jobs, failing, st, trace[n].i); }
      forall i | Begun(st', i) ensures LaneDone(cs, st', i) {
        assert LaneDone(cs, st, i);
      }
    }
  }

  /** When a command starts, every earlier command of its lane has passed, so same-lane commands never
      overlap and keep the order of the list; a packaging command has all earlier commands passed. */
  lemma StartsInOrder(cs: seq<Job>, jobs: nat, failing: set<nat>, trace: seq<Event>, p: nat)
    requires IsRun(cs, jobs, failing, trace) && p < |trace| && trace[p].Start?
    ensures var i := trace[p].i; var st := After(trace[..p]);
            && i < |cs| && LaneDone(cs, st, i)
            && (cs[i].packages ==> forall j: nat | j < i :: j in st.done)
            && (forall k | k in st.running :: k < i ==> !SameLane(cs, k, i))
  {
    PrefixIsRun(cs, jobs, failing, trace, p);
    LanesKeepOrder(cs, jobs, failing, trace[..p]);
    AtMostJobs(cs, jobs, failing, trace[..p]);
    assert AllowedAt(cs, jobs, failing, trace, p);
    var i, st := trace[p].i, After(trace[..p]);
    StartHasLaneDone(cs, jobs, failing, st, i);
    if cs[i].packages {
      forall j: nat | j < i ensures j in st.done { assert Needs(cs, i, j); }
    }
  }

  predicate BackendCommand(c: Command) {
    c != [] && c[0] == "make" && "-C" !in c && ("backend-test" in c || "deployment-check" in c)
  }

  /** Two commands run side by side only when exactly one of them is a backend check, and the later one does not package. */
  lemma RunningTogether(commands: seq<Command>, jobs: nat, failing: set<nat>, trace: seq<Event>, i: nat, k: nat)
    requires IsRun(JobsOf(commands), jobs, failing, trace) && i < k
    requires i in After(trace).running && k in After(trace).running
    ensures k < |commands| && BackendCommand(commands[i]) != BackendCommand(commands[k])
    ensures "frontend-package-verified" !in commands[k]
  {
    var cs, st := JobsOf(commands), After(trace);
    LanesKeepOrder(cs, jobs, failing, trace);
    AtMostJobs(cs, jobs, failing, trace);
    RunningWaited(cs, jobs, failing, trace, k);
    assert LaneDone(cs, st, k);
    assert SameLane(cs, i, k) ==> i in st.done;
    JobIs(commands[i]);
    JobIs(commands[k]);
    assert cs[k].packages ==> Needs(cs, k, i);
  }

  lemma JobIs(c: Command)
    ensures JobOf(c).backend == BackendCommand(c)
  {
    if c != [] { assert c[..1] == [c[0]]; }
  }

  /** Whatever runs has all it needs done. */
  lemma {:induction false} RunningWaited(cs: seq<Job>, jobs: nat, failing: set<nat>, trace: seq<Event>, i: nat)
    requires IsRun(cs, jobs, failing, trace) && i in After(trace).running
    ensures i < |cs| && forall j | Needs(cs, i, j) :: j in After(trace).done
    decreases |trace|
  {
    if trace != [] {
      var n := |trace| - 1;
      PrefixIsRun(cs, jobs, failing, trace, n);
      assert AllowedAt(cs, jobs, failing, trace, n);
      if trace[n] != Start(i) { RunningWaited(cs, jobs, failing, trace[..n], i); }
    }
  }

  lemma {:induction false} FailuresRemain(trace: seq<Event>, p: nat, q: nat)
    requires p <= q <= |trace|
    ensures After(trace[..p]).failed <= After(trace[..q]).failed
    decreases q - p
  {
    if p < q {
      FailuresRemain(trace, p, q - 1);
      assert trace[..q][..q - 1] == trace[..q - 1];
    }
  }

  /** Once a command has failed nothing starts any more; what runs is only collected. */
  lemma NothingStartsAfterFailure(cs: seq<Job>, jobs: nat, failing: set<nat>, trace: seq<Event>, p: nat, q: nat)
    requires IsRun(cs, jobs, failing, trace) && p < q < |trace| && trace[p].Finish? && !trace[p].ok
    ensures trace[q].Finish?
  {
    FailuresRemain(trace, p + 1, q);
    assert trace[..p + 1][..p] == trace[..p];
    assert AllowedAt(cs, jobs, failing, trace, q);
  }
}
